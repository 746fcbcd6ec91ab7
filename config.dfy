/**
 * `Settings.assemble_extensions` (app/core/config.py), the validator that
 * runs before `ALLOWED_EXTENSIONS` is stored: a comma-separated string from
 * the environment becomes a list of stripped pieces; anything else passes.
 */
module Config {
  import opened Text

  /** A raw setting value: a string (as read from the environment) or an already-built list. */
  datatype Setting = StrValue(s: string) | ListValue(xs: seq<string>)

  const DefaultAllowedExtensions: seq<string> := ["png", "jpg", "jpeg", "xlsx", "xls"]

  function StripAll(pieces: seq<string>): (r: seq<string>)
    ensures |r| == |pieces|
    ensures forall k :: 0 <= k < |pieces| ==> r[k] == Strip(pieces[k])
  {
    seq(|pieces|, k requires 0 <= k < |pieces| => Strip(pieces[k]))
  }

  /** `[i.strip() for i in v.split(",")]` for a string, `v` itself otherwise. */
  function AssembleExtensions(v: Setting): Setting
  {
    match v
    case StrValue(s) => ListValue(StripAll(SplitOn(s, ',')))
    case ListValue(_) => v
  }

  /**
   * A string becomes a list with one entry more than it has commas; entry `k`
   * is the `k`-th comma-separated piece with the surrounding whitespace
   * dropped, so no entry holds a comma or starts or ends with whitespace.
   * A list is returned unchanged.
   */
  lemma AssembleExtensionsSpec(v: Setting)
    ensures v.ListValue? ==> AssembleExtensions(v) == v
    ensures v.StrValue? ==>
      var r := AssembleExtensions(v);
      r.ListValue? && |r.xs| == CountChar(v.s, ',') + 1
      && (forall k :: 0 <= k < |r.xs| ==> r.xs[k] == Strip(SplitOn(v.s, ',')[k]))
      && (forall k :: 0 <= k < |r.xs| ==> ',' !in r.xs[k])
      && (forall k :: 0 <= k < |r.xs| ==> r.xs[k] == [] || (!IsSpace(r.xs[k][0]) && !IsSpace(r.xs[k][|r.xs[k]| - 1])))
  {
    if v.StrValue? {
      SplitOnCount(v.s);
      AssembleClean(v.s);
    }
  }

  lemma SplitOnCount(s: string)
    ensures |SplitOn(s, ',')| == CountChar(s, ',') + 1
  {
    SplitOnSpec(s, ',');
  }

  /** No entry of a validated string holds a comma or starts or ends with whitespace. */
  lemma AssembleClean(s: string)
    ensures var xs := StripAll(SplitOn(s, ','));
      forall k :: 0 <= k < |xs| ==> ',' !in xs[k] && (xs[k] == [] || (!IsSpace(xs[k][0]) && !IsSpace(xs[k][|xs[k]| - 1])))
  {
    var pieces := SplitOn(s, ',');
    SplitOnNoSep(s);
    var xs := StripAll(pieces);
    forall k | 0 <= k < |xs| ensures ',' !in xs[k] && (xs[k] == [] || (!IsSpace(xs[k][0]) && !IsSpace(xs[k][|xs[k]| - 1]))) {
      StripKeepsOut(pieces[k], ',');
    }
  }

  lemma SplitOnNoSep(s: string)
    ensures forall k :: 0 <= k < |SplitOn(s, ',')| ==> ',' !in SplitOn(s, ',')[k]
  {
    SplitOnSpec(s, ',');
  }

  /** `strip()` only drops characters, so a character absent before is absent after. */
  lemma StripKeepsOut(s: string, c: char)
    requires c !in s
    ensures c !in Strip(s)
    ensures Strip(s) == [] || (!IsSpace(Strip(s)[0]) && !IsSpace(Strip(s)[|Strip(s)| - 1]))
  {
    var lo := LeadingSpaces(s);
    var r := Strip(s);
    forall i | 0 <= i < |r| ensures r[i] != c {
      assert r[i] == s[lo + i];
    }
  }

  /** Splitting a comma-joined list of comma-free pieces gives the pieces back. */
  lemma {:induction false} SplitJoin(pieces: seq<string>)
    requires |pieces| >= 1
    requires forall k :: 0 <= k < |pieces| ==> ',' !in pieces[k]
    ensures SplitOn(Join(pieces, ','), ',') == pieces
    decreases |pieces|, |pieces[0]|
  {
    if |pieces| == 1 {
      SplitAtom(pieces[0]);
    } else {
      var head := pieces[0];
      var rest := pieces[1..];
      SplitJoin(rest);
      SplitPrefixed(head, Join(rest, ','));
    }
  }

  /** A comma-free string splits into itself alone. */
  lemma {:induction false} SplitAtom(s: string)
    requires ',' !in s
    ensures SplitOn(s, ',') == [s]
  {
    if s != [] {
      SplitAtom(s[1..]);
      assert [s[0]] + s[1..] == s;
    }
  }

  /** A comma-free head, a comma, then anything: the head is the first piece. */
  lemma {:induction false} SplitPrefixed(head: string, tail: string)
    requires ',' !in head
    ensures SplitOn(head + [','] + tail, ',') == [head] + SplitOn(tail, ',')
  {
    if head == [] {
      assert [] + [','] + tail == [','] + tail;
      assert ([','] + tail)[1..] == tail;
    } else {
      var s := head + [','] + tail;
      assert s[1..] == head[1..] + [','] + tail;
      SplitPrefixed(head[1..], tail);
      assert [head[0]] + head[1..] == head;
    }
  }

  /**
   * The environment form of a list round-trips: joining clean entries (no
   * comma, no whitespace at either end) with commas and validating the
   * string gives the list back. So the default list written as
   * "png,jpg,jpeg,xlsx,xls" validates to the default.
   */
  lemma {:induction false} AssembleJoined(xs: seq<string>)
    requires |xs| >= 1
    requires forall k :: 0 <= k < |xs| ==> ',' !in xs[k]
    requires forall k :: 0 <= k < |xs| ==> xs[k] == [] || (!IsSpace(xs[k][0]) && !IsSpace(xs[k][|xs[k]| - 1]))
    ensures AssembleExtensions(StrValue(Join(xs, ','))) == ListValue(xs)
  {
    SplitJoin(xs);
    forall k | 0 <= k < |xs| ensures Strip(xs[k]) == xs[k] {
      StripUnspaced(xs[k]);
    }
  }

  lemma DefaultRoundTrip()
    ensures AssembleExtensions(StrValue("png,jpg,jpeg,xlsx,xls")) == ListValue(DefaultAllowedExtensions)
    ensures AssembleExtensions(ListValue(DefaultAllowedExtensions)) == ListValue(DefaultAllowedExtensions)
  {
    DefaultJoined();
    DefaultEntriesClean();
    AssembleJoined(DefaultAllowedExtensions);
  }

  /** The default list, comma-joined. */
  lemma DefaultJoined()
    ensures Join(DefaultAllowedExtensions, ',') == "png,jpg,jpeg,xlsx,xls"
  {
    var xs := DefaultAllowedExtensions;
    JoinCons(xs, ',');
    JoinCons(xs[1..], ',');
    JoinCons(xs[2..], ',');
    JoinCons(xs[3..], ',');
    assert xs[1..][1..] == xs[2..] && xs[2..][1..] == xs[3..] && xs[3..][1..] == xs[4..];
    assert Join(xs[4..], ',') == "xls";
    assert "xlsx" + [','] + "xls" == "xlsx,xls";
    assert "jpeg" + [','] + "xlsx,xls" == "jpeg,xlsx,xls";
    assert "jpg" + [','] + "jpeg,xlsx,xls" == "jpg,jpeg,xlsx,xls";
    assert "png" + [','] + "jpg,jpeg,xlsx,xls" == "png,jpg,jpeg,xlsx,xls";
  }

  lemma JoinCons(pieces: seq<string>, sep: char)
    requires |pieces| >= 2
    ensures Join(pieces, sep) == pieces[0] + [sep] + Join(pieces[1..], sep)
  {
  }

  /** No default entry holds a comma or starts or ends with whitespace. */
  lemma DefaultEntriesClean()
    ensures forall k :: 0 <= k < |DefaultAllowedExtensions| ==> ',' !in DefaultAllowedExtensions[k]
    ensures forall k :: 0 <= k < |DefaultAllowedExtensions| ==>
      DefaultAllowedExtensions[k] == [] || (!IsSpace(DefaultAllowedExtensions[k][0])
        && !IsSpace(DefaultAllowedExtensions[k][|DefaultAllowedExtensions[k]| - 1]))
  {
  }
}
