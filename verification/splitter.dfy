/** What app.py does with the generated text: cut it into the Instagram,
    Shorts and X sections on the "|||" separator, with sentinel texts when the
    generator did not follow the layout, then delete the section title from
    each section before it is shown. */
module Splitter {
  import opened PyStr

  const Separator: string := "|||"

  /** Shown on a tab whose section the text does not have. */
  const NoData: string := "No Data"

  /** Shown on the Shorts and X tabs when the text has no separator at all, so
      that everything is on the Instagram tab. */
  const SeeMainTab: string := "See Main Tab"

  /** The titles deleted from the sections before display. */
  const InstaTitle: string := "SECTION 1: INSTAGRAM REELS"
  const ShortsTitle: string := "SECTION 2: YOUTUBE SHORTS"
  const XTitle: string := "SECTION 3: X (TWITTER)"

  /** The texts of the Insta, Shorts and Twitter/X tabs. */
  datatype Plan = Plan(insta: string, shorts: string, x: string)

  /** Python's `sections[k] if len(sections) > k else default`. */
  function Pick(sections: seq<string>, k: nat, default: string): string {
    if |sections| > k then sections[k] else default
  }

  /** What the split of a text with one separator looks like. */
  lemma OneSeparator(raw: string)
    requires |Split(raw, Separator)| == 2
    ensures Clean(Split(raw, Separator)[0], Separator)
    ensures !Contains(Split(raw, Separator)[1], Separator)
    ensures raw == Split(raw, Separator)[0] + Separator + Split(raw, Separator)[1]
  {
    SplitWellFormed(raw, Separator);
    JoinSplit(raw, Separator);
    JoinTwo(Split(raw, Separator), Separator);
  }

  /** What the split of a text with two separators looks like. */
  lemma TwoSeparators(raw: string)
    requires |Split(raw, Separator)| == 3
    ensures Clean(Split(raw, Separator)[0], Separator)
    ensures Clean(Split(raw, Separator)[1], Separator)
    ensures !Contains(Split(raw, Separator)[2], Separator)
    ensures raw == Split(raw, Separator)[0] + Separator + Split(raw, Separator)[1]
                   + Separator + Split(raw, Separator)[2]
  {
    SplitWellFormed(raw, Separator);
    JoinSplit(raw, Separator);
    JoinThree(Split(raw, Separator), Separator);
  }

  /** What the split of a text with more than two separators looks like. */
  lemma ManySeparators(raw: string)
    requires |Split(raw, Separator)| > 3
    ensures Clean(Split(raw, Separator)[0], Separator)
    ensures Clean(Split(raw, Separator)[1], Separator)
    ensures Clean(Split(raw, Separator)[2], Separator)
    ensures StartsWith(raw, Split(raw, Separator)[0] + Separator + Split(raw, Separator)[1]
                            + Separator + Split(raw, Separator)[2] + Separator)
  {
    var ps := Split(raw, Separator);
    SplitWellFormed(raw, Separator);
    JoinSplit(raw, Separator);
    JoinMore(ps, Separator);
    StartsWithAppend(ps[0] + Separator + ps[1] + Separator + ps[2] + Separator, Join(ps[3..], Separator));
  }

  /** What the split of a text with a separator looks like, by the number of separators. */
  lemma SplitShape(raw: string)
    requires Contains(raw, Separator)
    ensures |Split(raw, Separator)| == Count(raw, Separator) + 1 >= 2
    ensures |Split(raw, Separator)| == 2 ==>
      && Clean(Split(raw, Separator)[0], Separator)
      && !Contains(Split(raw, Separator)[1], Separator)
      && raw == Split(raw, Separator)[0] + Separator + Split(raw, Separator)[1]
    ensures |Split(raw, Separator)| == 3 ==>
      && Clean(Split(raw, Separator)[0], Separator)
      && Clean(Split(raw, Separator)[1], Separator)
      && !Contains(Split(raw, Separator)[2], Separator)
      && raw == Split(raw, Separator)[0] + Separator + Split(raw, Separator)[1]
                + Separator + Split(raw, Separator)[2]
    ensures |Split(raw, Separator)| > 3 ==>
      && Clean(Split(raw, Separator)[0], Separator)
      && Clean(Split(raw, Separator)[1], Separator)
      && Clean(Split(raw, Separator)[2], Separator)
      && StartsWith(raw, Split(raw, Separator)[0] + Separator + Split(raw, Separator)[1]
                         + Separator + Split(raw, Separator)[2] + Separator)
  {
    SplitLength(raw, Separator);
    if |Split(raw, Separator)| == 2 {
      OneSeparator(raw);
    } else if |Split(raw, Separator)| == 3 {
      TwoSeparators(raw);
    } else {
      ManySeparators(raw);
    }
  }

  /** Lines 121-130 of app.py: the three tab texts cut out of the generated
      text. Each section is the text between two separators (or an end), and no
      separator starts inside it; with one separator the text is exactly the
      two sections around it, with two exactly the three sections, and with
      more the text starts with the three sections. */
  function Extract(raw: string): (p: Plan)
    ensures !Contains(raw, Separator) ==> p == Plan(raw, SeeMainTab, SeeMainTab)
    ensures Count(raw, Separator) == 1 ==>
      && Clean(p.insta, Separator)
      && !Contains(p.shorts, Separator)
      && p.x == NoData
      && raw == p.insta + Separator + p.shorts
    ensures Count(raw, Separator) == 2 ==>
      && Clean(p.insta, Separator)
      && Clean(p.shorts, Separator)
      && !Contains(p.x, Separator)
      && raw == p.insta + Separator + p.shorts + Separator + p.x
    ensures Count(raw, Separator) > 2 ==>
      && Clean(p.insta, Separator)
      && Clean(p.shorts, Separator)
      && Clean(p.x, Separator)
      && StartsWith(raw, p.insta + Separator + p.shorts + Separator + p.x + Separator)
  {
    if Contains(raw, Separator) then
      SplitShape(raw);
      var sections := Split(raw, Separator);
      Plan(Pick(sections, 0, raw), Pick(sections, 1, NoData), Pick(sections, 2, NoData))
    else
      Plan(raw, SeeMainTab, SeeMainTab)
  }

  /** With a separator, the Instagram tab is the text before the first one,
      so the `else raw_text` fallback of line 123 never applies, and the Shorts
      tab is the first piece of the text after it, so never the "No Data" of
      line 124. */
  lemma ExtractAroundFirst(raw: string)
    requires Contains(raw, Separator)
    ensures Extract(raw).insta == raw[..Find(raw, Separator).value]
    ensures Extract(raw).shorts == Split(raw[Find(raw, Separator).value + |Separator|..], Separator)[0]
  {
    var i := Find(raw, Separator).value;
    SplitShape(raw);
    SplitAtFind(raw, Separator, i);
    SplitLength(raw[i + |Separator|..], Separator);
  }

  /** The converse for one separator: two sections joined by it are cut
      back out, and the X tab shows "No Data". */
  lemma ExtractTwoSections(a: string, b: string)
    requires Clean(a, Separator)
    requires !Contains(b, Separator)
    ensures Extract(a + Separator + b) == Plan(a, b, NoData)
  {
    var ps := [a, b];
    assert WellFormed(ps, Separator);
    JoinTwo(ps, Separator);
    SplitJoin(ps, Separator);
    OccursBetween(a, Separator, b);
  }

  /** The converse for two separators: three sections joined by them are cut
      back out as they were. */
  lemma ExtractRoundTrip(a: string, b: string, c: string)
    requires Clean(a, Separator)
    requires Clean(b, Separator)
    requires !Contains(c, Separator)
    ensures Extract(a + Separator + b + Separator + c) == Plan(a, b, c)
  {
    var ps := [a, b, c];
    assert WellFormed(ps, Separator);
    JoinThree(ps, Separator);
    SplitJoin(ps, Separator);
    OccursBetween(a, Separator, b + Separator + c);
    assert a + Separator + (b + Separator + c) == a + Separator + b + Separator + c;
  }

  /** Whatever follows a third separator is not shown on any tab. */
  lemma ExtractDropsTail(a: string, b: string, c: string, tail: string)
    requires Clean(a, Separator)
    requires Clean(b, Separator)
    requires Clean(c, Separator)
    ensures Extract(a + Separator + b + Separator + c + Separator + tail) == Plan(a, b, c)
  {
    var t3 := c + Separator + tail;
    var t2 := b + Separator + t3;
    var t1 := a + Separator + t2;
    SplitCons(c, Separator, tail);
    SplitCons(b, Separator, t3);
    SplitCons(a, Separator, t2);
    var ps := Split(t1, Separator);
    assert ps == [a] + ([b] + ([c] + Split(tail, Separator)));
    assert ps[0] == a && ps[1] == b && ps[2] == c;
    OccursBetween(a, Separator, t2);
    Regroup(a, Separator, b, c, tail);
  }

  /** A section free of the separator is not enough for the round trip: "x|"
      has no "|||", yet the first "|||" of "x|" + "|||" + "" + "|||" + "" starts
      inside it, and the sections come back different. */
  lemma RoundTripNeedsClean()
    ensures !Contains("x|", Separator)
    ensures Extract("x|" + Separator + "" + Separator + "") == Plan("x", "", "|")
  {
    var raw := "x|" + Separator + "" + Separator + "";
    var probe := "x" + Separator[..|Separator| - 1];
    assert probe[..|Separator|][0] == 'x';
    assert probe[..|Separator|] != Separator;
    assert Find(probe[1..], Separator) == None;
    assert raw == "x" + Separator + "" + Separator + "|";
    ExtractRoundTrip("x", "", "|");
  }

  /** Lines 138, 150 and 157 of app.py: each tab shows its section with every
      occurrence of its title deleted, which keeps exactly the text between
      the occurrences and takes the title's length away once per occurrence. */
  function StripTitles(p: Plan): (shown: Plan)
    ensures shown.insta == Join(Split(p.insta, InstaTitle), "")
    ensures shown.shorts == Join(Split(p.shorts, ShortsTitle), "")
    ensures shown.x == Join(Split(p.x, XTitle), "")
    ensures |shown.insta| + Count(p.insta, InstaTitle) * |InstaTitle| == |p.insta|
    ensures |shown.shorts| + Count(p.shorts, ShortsTitle) * |ShortsTitle| == |p.shorts|
    ensures |shown.x| + Count(p.x, XTitle) * |XTitle| == |p.x|
  {
    RemoveKeepsPieces(p.insta, InstaTitle);
    RemoveKeepsPieces(p.shorts, ShortsTitle);
    RemoveKeepsPieces(p.x, XTitle);
    RemoveLength(p.insta, InstaTitle);
    RemoveLength(p.shorts, ShortsTitle);
    RemoveLength(p.x, XTitle);
    Plan(Remove(p.insta, InstaTitle), Remove(p.shorts, ShortsTitle), Remove(p.x, XTitle))
  }

  /** Lines 121-157 of app.py: what the three tabs show for a generated text.
      The sentinels are shorter than the titles, so they reach the tabs as they are. */
  function Display(raw: string): (shown: Plan)
    ensures !Contains(raw, Separator) ==>
      shown == Plan(Remove(raw, InstaTitle), SeeMainTab, SeeMainTab)
    ensures Count(raw, Separator) == 1 ==> shown.x == NoData
  {
    StripTitles(Extract(raw))
  }

  /** A text laid out as asked for, each section holding its title once: the
      tabs show each section without its title and nothing else changes. */
  lemma DisplayLaidOut(lead1: string, body1: string, lead2: string, body2: string,
                       lead3: string, body3: string)
    requires Clean(lead1 + InstaTitle + body1, Separator)
    requires Clean(lead2 + ShortsTitle + body2, Separator)
    requires !Contains(lead3 + XTitle + body3, Separator)
    requires Clean(lead1, InstaTitle) && !Contains(body1, InstaTitle)
    requires Clean(lead2, ShortsTitle) && !Contains(body2, ShortsTitle)
    requires Clean(lead3, XTitle) && !Contains(body3, XTitle)
    ensures Display((lead1 + InstaTitle + body1) + Separator + (lead2 + ShortsTitle + body2)
                    + Separator + (lead3 + XTitle + body3))
            == Plan(lead1 + body1, lead2 + body2, lead3 + body3)
  {
    ExtractRoundTrip(lead1 + InstaTitle + body1, lead2 + ShortsTitle + body2, lead3 + XTitle + body3);
    RemoveOne(lead1, InstaTitle, body1);
    RemoveOne(lead2, ShortsTitle, body2);
    RemoveOne(lead3, XTitle, body3);
  }
}
