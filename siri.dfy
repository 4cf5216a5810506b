/**
 * The spoken text `format_for_siri` produces (mta.py), as functions:
 * which directions it renders, the top-three cut-off, the sentence for an
 * empty list, the Uptown/Downtown labels, the per-train phrases and the
 * fallback sentence. The method that builds the text with loops is
 * `Mta.FormatForSiri`.
 */
module Siri {
  import opened Wrappers
  import opened Text
  import opened Extraction

  const Fallback := "No train information available."

  /** How one train is spoken: "arriving now", "in 1 minute" or "in n minutes". */
  function Phrase(a: Arrival): string
  {
    if a.minutes == 0 then a.route + " train arriving now"
    else if a.minutes == 1 then a.route + " train in 1 minute"
    else a.route + " train in " + IntToString(a.minutes) + " minutes"
  }

  function Phrases(trains: seq<Arrival>): (ps: seq<string>)
    ensures |ps| == |trains|
    ensures forall i :: 0 <= i < |trains| ==> ps[i] == Phrase(trains[i])
  {
    seq(|trains|, i requires 0 <= i < |trains| => Phrase(trains[i]))
  }

  /** `trains[:3]` */
  function TopThree(trains: seq<Arrival>): (top: seq<Arrival>)
    ensures |top| == if |trains| < 3 then |trains| else 3
    ensures top == trains[..|top|]
  {
    if |trains| <= 3 then trains else trains[..3]
  }

  function Label(d: string): string
  {
    if d == North then "Uptown" else "Downtown"
  }

  /** The sentence for direction `d` when its list is `trains`. */
  function Section(d: string, trains: seq<Arrival>): string
  {
    var top := TopThree(trains);
    if |top| == 0 then "No " + d + " trains scheduled."
    else Label(d) + ": " + Join(", ", Phrases(top)) + "."
  }

  /** `[direction] if direction else ["northbound", "southbound"]` */
  function Directions(direction: Option<string>): seq<string>
  {
    if direction.Some? && direction.value != "" then [direction.value] else [North, South]
  }

  /** The sentences for the directions `ds`, in order, skipping directions `arrivals` has no list for. */
  function Sections(arrivals: map<string, seq<Arrival>>, ds: seq<string>): seq<string>
  {
    if |ds| == 0 then []
    else
      var d := ds[|ds| - 1];
      Sections(arrivals, ds[..|ds| - 1]) + (if d in arrivals then [Section(d, arrivals[d])] else [])
  }

  function SiriText(arrivals: map<string, seq<Arrival>>, direction: Option<string>): string
  {
    var parts := Sections(arrivals, Directions(direction));
    if |parts| == 0 then Fallback else Join(" ", parts)
  }

  // ----- which sections are rendered -----

  lemma SectionsOfTwo(arrivals: map<string, seq<Arrival>>, d: string, e: string)
    ensures Sections(arrivals, [d, e]) ==
      (if d in arrivals then [Section(d, arrivals[d])] else []) + (if e in arrivals then [Section(e, arrivals[e])] else [])
  {
    var ds := [d, e];
    assert ds[..1] == [d];
    SectionsOfOne(arrivals, d);
    assert Sections(arrivals, ds) == Sections(arrivals, [d]) + (if e in arrivals then [Section(e, arrivals[e])] else []);
  }

  lemma SectionsOfOne(arrivals: map<string, seq<Arrival>>, d: string)
    ensures Sections(arrivals, [d]) == if d in arrivals then [Section(d, arrivals[d])] else []
  {
    assert [d][..0] == [];
  }

  /** Without a direction, the northbound sentence comes first, then the southbound one, joined by a space. */
  lemma RenderBoth(arrivals: map<string, seq<Arrival>>, direction: Option<string>)
    requires direction.None? || direction.value == ""
    requires North in arrivals && South in arrivals
    ensures SiriText(arrivals, direction) == Section(North, arrivals[North]) + " " + Section(South, arrivals[South])
  {
    var n, m := Section(North, arrivals[North]), Section(South, arrivals[South]);
    SectionsOfTwo(arrivals, North, South);
    assert Sections(arrivals, Directions(direction)) == [n, m];
    JoinTwo(" ", n, m);
  }

  /**
   * Two sentences joined by a space are never the fallback: an Uptown
   * sentence starts with "U", and "No northbound ..." differs from
   * "No train ..." at its fourth letter.
   */
  lemma BothNotFallback(north: seq<Arrival>, south: seq<Arrival>)
    ensures Section(North, north) + " " + Section(South, south) != Fallback
  {
    var first, rest := Section(North, north), " " + Section(South, south);
    NorthboundHead(north);
    AppendAssoc(first, " ", Section(South, south));
    HeadNotFallback(first, rest);
  }

  /** No text that starts with "U", or has "n" as its fourth letter, is the fallback. */
  lemma HeadNotFallback(first: string, rest: string)
    requires |first| > 3 && (first[0] == 'U' || first[3] == 'n')
    ensures first + rest != Fallback
  {
    assert (first + rest)[0] == first[0] && (first + rest)[3] == first[3];
    assert Fallback[0] == 'N' && Fallback[3] == 't';
  }

  /** A northbound sentence starts "Uptown" or "No northbound". */
  lemma NorthboundHead(trains: seq<Arrival>)
    ensures StartsWith(Section(North, trains), "Uptown") || StartsWith(Section(North, trains), "No northbound")
    ensures |Section(North, trains)| > 3
    ensures Section(North, trains)[0] == 'U' || Section(North, trains)[3] == 'n'
  {
    if |TopThree(trains)| == 0 {
      assert Section(North, trains) == "No " + North + " trains scheduled.";
    } else {
      assert Section(North, trains) == "Uptown" + (": " + Join(", ", Phrases(TopThree(trains))) + ".");
    }
  }

  /** Without a direction, a direction the dictionary lacks is skipped; with both lacking, the fallback is spoken. */
  lemma RenderBothOneMissing(arrivals: map<string, seq<Arrival>>, direction: Option<string>)
    requires direction.None? || direction.value == ""
    ensures North in arrivals && South !in arrivals ==> SiriText(arrivals, direction) == Section(North, arrivals[North])
    ensures North !in arrivals && South in arrivals ==> SiriText(arrivals, direction) == Section(South, arrivals[South])
    ensures North !in arrivals && South !in arrivals ==> SiriText(arrivals, direction) == Fallback
  {
    SectionsOfTwo(arrivals, North, South);
  }

  /** A given direction renders only its own sentence: a southbound-only request mentions no Uptown trains. */
  lemma RenderOnly(arrivals: map<string, seq<Arrival>>, d: string)
    requires d != "" && d in arrivals
    ensures SiriText(arrivals, Some(d)) == Section(d, arrivals[d])
  {
    SectionsOfOne(arrivals, d);
  }

  /** A direction the dictionary has no list for produces no section, so the fallback sentence. */
  lemma RenderUnknown(arrivals: map<string, seq<Arrival>>, d: string)
    requires d != "" && d !in arrivals
    ensures SiriText(arrivals, Some(d)) == Fallback
  {
    SectionsOfOne(arrivals, d);
  }

  // ----- one section -----

  /** Only the first three trains of a list are spoken. */
  lemma SectionTopThree(d: string, trains: seq<Arrival>, more: seq<Arrival>)
    requires |trains| >= 3
    ensures Section(d, trains + more) == Section(d, trains[..3])
  {
    assert (trains + more)[..3] == trains[..3];
  }

  lemma SectionEmpty(d: string)
    ensures Section(d, []) == "No " + d + " trains scheduled."
  {
  }

  /** A non-empty list is spoken as the label, then its first (up to) three phrases in list order. */
  lemma SectionNonEmpty(d: string, trains: seq<Arrival>)
    requires trains != []
    ensures |trains| == 1 ==> Section(d, trains) == Label(d) + ": " + Phrase(trains[0]) + "."
    ensures |trains| == 2 ==> Section(d, trains) == Label(d) + ": " + Phrase(trains[0]) + ", " + Phrase(trains[1]) + "."
    ensures |trains| >= 3 ==> Section(d, trains) == Label(d) + ": " + Phrase(trains[0]) + ", " + Phrase(trains[1]) + ", " + Phrase(trains[2]) + "."
  {
    var ps := Phrases(TopThree(trains));
    var head := Label(d) + ": ";
    if |trains| == 2 {
      assert ps == [Phrase(trains[0]), Phrase(trains[1])];
      JoinTwo(", ", Phrase(trains[0]), Phrase(trains[1]));
      AppendAssoc(head, Phrase(trains[0]) + ", ", Phrase(trains[1]));
      AppendAssoc(head, Phrase(trains[0]), ", ");
    } else if |trains| >= 3 {
      var p0, p1, p2 := Phrase(trains[0]), Phrase(trains[1]), Phrase(trains[2]);
      assert ps == [p0, p1, p2];
      JoinThree(", ", p0, p1, p2);
      AppendAssoc(head, p0 + ", " + p1 + ", ", p2);
      AppendAssoc(head, p0 + ", " + p1, ", ");
      AppendAssoc(head, p0 + ", ", p1);
      AppendAssoc(head, p0, ", ");
    }
  }

  // ----- one phrase -----

  lemma {:induction false} IntToStringInjective(m: int, n: int)
    requires IntToString(m) == IntToString(n)
    ensures m == n
  {
    if m >= 0 && n >= 0 {
      NatToStringInjective(m, n);
    } else if m < 0 && n < 0 {
      assert NatToString(-m) == IntToString(m)[1..];
      NatToStringInjective(-m, -n);
    }
  }

  /** The words after "{route} train ". */
  function PhraseTail(minutes: int): string
  {
    if minutes == 0 then "arriving now"
    else if minutes == 1 then "in 1 minute"
    else "in " + IntToString(minutes) + " minutes"
  }

  lemma PhraseTailInjective(m: int, n: int)
    requires PhraseTail(m) == PhraseTail(n)
    ensures m == n
  {
    var s := PhraseTail(m);
    if m != 0 && m != 1 && n != 0 && n != 1 {
      assert IntToString(m) == s[3..|s| - 8];
      assert IntToString(n) == s[3..|s| - 8];
      IntToStringInjective(m, n);
    } else if m == 0 || n == 0 {
      assert s[0] == 'a';
    } else {
      assert |s| == 11;
    }
  }

  /** Every phrase is the route, " train " and the words for the minutes. */
  lemma PhraseSplit(a: Arrival)
    ensures Phrase(a) == a.route + " train " + PhraseTail(a.minutes)
  {
    var r := a.route;
    if a.minutes == 0 {
      assert " train " + "arriving now" == " train arriving now";
      AppendAssoc(r, " train ", "arriving now");
    } else if a.minutes == 1 {
      assert " train " + "in 1 minute" == " train in 1 minute";
      AppendAssoc(r, " train ", "in 1 minute");
    } else {
      var n := IntToString(a.minutes);
      assert " train " + "in " == " train in ";
      AppendAssoc(r, " train ", "in ");
      AppendAssoc(r + " train ", "in ", n);
      AppendAssoc(r + " train ", "in " + n, " minutes");
    }
  }

  /** The spoken phrase gives back the minutes: two trains of one route are spoken alike only when equally far away. */
  lemma PhraseDeterminesMinutes(a: Arrival, b: Arrival)
    requires a.route == b.route && Phrase(a) == Phrase(b)
    ensures a.minutes == b.minutes
  {
    var p := a.route + " train ";
    PhraseSplit(a);
    PhraseSplit(b);
    DropPrefix(p, PhraseTail(a.minutes));
    DropPrefix(p, PhraseTail(b.minutes));
    PhraseTailInjective(a.minutes, b.minutes);
  }
}
