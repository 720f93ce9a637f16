/** The `eventType` values the form offers, as the notice shows them. Kept
    apart from `BookingMail` so that evaluating the literals stays cheap.
    The lemmas about `church-service` take the literal, or its two halves,
    as a parameter pinned by `requires`: the parameter only keeps the
    literal out of the verifier's context until the lemma is applied. */
module EventTypeCases {
  import opened JsStrings
  import opened BookingMail

  /** The one hyphenated option reads "Church service". */
  lemma ChurchServiceDisplay(s: string)
    requires s == "church-service"
    ensures EventTypeDisplay(s) == "Church service"
  {
    SplitAtHyphen(s);
    HyphenatedDisplay("church", "service");
    CapitalisedChurchService("church", "service");
  }

  /** The option is its two words joined by one hyphen. */
  lemma SplitAtHyphen(s: string)
    requires s == "church-service"
    ensures s == "church" + "-" + "service"
  {
  }

  /** Capitalising the first word and joining with a space reads "Church service". */
  lemma CapitalisedChurchService(a: string, b: string)
    requires a == "church" && b == "service"
    ensures [UpperAscii(a[0])] + a[1..] + " " + b == "Church service"
  {
  }

  /** Every other option only gets its first letter capitalised. */
  lemma PlainEventTypesDisplay(s: string)
    requires s in ["revival", "concert", "conference", "wedding", "funeral", "other"]
    ensures 'a' <= s[0] <= 'z'
    ensures EventTypeDisplay(s) == [UpperAscii(s[0])] + s[1..]
  {
    NoHyphenDisplay(s);
  }

  /** Only the first hyphen becomes a space; a later one is kept. */
  lemma SecondHyphenKept(s: string)
    requires s == "a-b-c"
    ensures EventTypeDisplay(s) == "A b-c"
  {
    assert s == "a" + "-" + "b-c";
    HyphenatedDisplay("a", "b-c");
    assert UpperAscii('a') == 'A';
  }
}
