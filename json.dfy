/** JSON text for a list of strings, as the server stores `tricks.hashtags` and
    `profiles.trick_videos` (`JSON.stringify`) and reads them back (`JSON.parse`). */
module Json {
  import opened Common

  function EscapeChar(c: char): string {
    if c == '"' || c == '\\' then ['\\', c] else [c]
  }

  function Escape(s: string): string
    decreases |s|
  {
    if s == [] then [] else EscapeChar(s[0]) + Escape(s[1..])
  }

  function Quote(s: string): string {
    ['"'] + Escape(s) + ['"']
  }

  /** The comma-separated quoted items between the brackets. */
  function Items(xs: seq<string>): string
    decreases |xs|
  {
    if |xs| == 0 then []
    else if |xs| == 1 then Quote(xs[0])
    else Quote(xs[0]) + [','] + Items(xs[1..])
  }

  /** `JSON.stringify` of an array of strings. */
  function Encode(xs: seq<string>): string {
    ['['] + Items(xs) + [']']
  }

  /** Reads a string body that follows its opening quote; gives the content and what
      follows the closing quote. */
  function ParseString(s: string): (r: Option<(string, string)>)
    ensures r.Some? ==> |r.value.1| < |s|
    decreases |s|
  {
    if s == [] then None
    else if s[0] == '"' then Some(([], s[1..]))
    else if s[0] == '\\' then
      if |s| < 2 || !(s[1] == '"' || s[1] == '\\') then None
      else match ParseString(s[2..])
        case None => None
        case Some((c, rest)) => Some(([s[1]] + c, rest))
    else match ParseString(s[1..])
      case None => None
      case Some((c, rest)) => Some(([s[0]] + c, rest))
  }

  /** Reads one or more quoted items up to and including the closing bracket, which
      must end the text. */
  function ParseItems(s: string): Option<seq<string>>
    decreases |s|
  {
    if s == [] || s[0] != '"' then None
    else match ParseString(s[1..])
      case None => None
      case Some((x, rest)) =>
        if rest == [']'] then Some([x])
        else if rest != [] && rest[0] == ',' then
          match ParseItems(rest[1..])
          case None => None
          case Some(ys) => Some([x] + ys)
        else None
  }

  /** `JSON.parse` of a text expected to hold an array of strings; None when it does not. */
  function Decode(s: string): Option<seq<string>> {
    if s == ['[', ']'] then Some([])
    else if s != [] && s[0] == '[' then ParseItems(s[1..])
    else None
  }

  /** `col ? JSON.parse(col) : []`: a NULL or empty column reads as the empty list. */
  function ReadColumn(col: Option<string>): Option<seq<string>> {
    if !Present(col) then Some([]) else Decode(col.value)
  }

  lemma {:induction false} ParseEscaped(x: string, rest: string)
    ensures ParseString(Escape(x) + ['"'] + rest) == Some((x, rest))
    decreases |x|
  {
    var s := Escape(x) + ['"'] + rest;
    if x != [] {
      ParseEscaped(x[1..], rest);
      var tail := Escape(x[1..]) + ['"'] + rest;
      assert s == EscapeChar(x[0]) + tail;
      if x[0] == '"' || x[0] == '\\' {
        assert s[2..] == tail;
      } else {
        assert s[1..] == tail;
      }
      assert [x[0]] + x[1..] == x;
    }
  }

  /** What follows the first quoted item of `Items(xs) + "]"`. */
  function ItemsTail(xs: seq<string>): string
    requires |xs| >= 1
  {
    if |xs| == 1 then [']'] else [','] + Items(xs[1..]) + [']']
  }

  lemma ItemsHead(xs: seq<string>)
    requires |xs| >= 1
    ensures Items(xs) + [']'] == ['"'] + (Escape(xs[0]) + ['"'] + ItemsTail(xs))
  {
    if |xs| == 1 {
      ItemsHeadOne(xs);
    } else {
      ItemsHeadMore(xs);
    }
  }

  lemma ItemsHeadOne(xs: seq<string>)
    requires |xs| == 1
    ensures Items(xs) + [']'] == ['"'] + (Escape(xs[0]) + ['"'] + ItemsTail(xs))
  {
    Regroup(['"'], Escape(xs[0]), ['"'], [], [']']);
    assert Items(xs) == ['"'] + Escape(xs[0]) + ['"'];
    assert ['"'] + Escape(xs[0]) + ['"'] + [] == Items(xs);
  }

  lemma ItemsHeadMore(xs: seq<string>)
    requires |xs| >= 2
    ensures Items(xs) + [']'] == ['"'] + (Escape(xs[0]) + ['"'] + ItemsTail(xs))
  {
    var i := Items(xs[1..]);
    Regroup6(['"'], Escape(xs[0]), ['"'], [','], i, [']']);
    assert Items(xs) == ['"'] + Escape(xs[0]) + ['"'] + [','] + i;
  }

  lemma Regroup(a: string, b: string, c: string, d: string, e: string)
    ensures a + b + c + d + e == a + (b + c + (d + e))
  {
  }

  lemma Regroup6(a: string, b: string, c: string, d: string, e: string, f: string)
    ensures a + b + c + d + e + f == a + (b + c + (d + e + f))
  {
  }

  lemma ItemsTailOfMore(xs: seq<string>)
    requires |xs| >= 2
    ensures ItemsTail(xs) != [']'] && ItemsTail(xs)[0] == ','
    ensures ItemsTail(xs)[1..] == Items(xs[1..]) + [']']
  {
    assert |Items(xs[1..])| >= 2 by { assert |Quote(xs[1])| >= 2; }
  }

  lemma {:induction false} ParseEncodedItems(xs: seq<string>)
    requires |xs| >= 1
    ensures ParseItems(Items(xs) + [']']) == Some(xs)
    decreases |xs|
  {
    var tail := ItemsTail(xs);
    var s := ['"'] + (Escape(xs[0]) + ['"'] + tail);
    ItemsHead(xs);
    ParseEscaped(xs[0], tail);
    assert s[0] == '"' && s[1..] == Escape(xs[0]) + ['"'] + tail;
    assert ParseString(s[1..]) == Some((xs[0], tail));
    if |xs| > 1 {
      ParseEncodedItems(xs[1..]);
      ItemsTailOfMore(xs);
      assert ParseItems(tail[1..]) == Some(xs[1..]);
      assert ParseItems(s) == Some([xs[0]] + xs[1..]);
      assert [xs[0]] + xs[1..] == xs;
    } else {
      assert ParseItems(s) == Some([xs[0]]);
      assert [xs[0]] == xs;
    }
  }

  /** Round trip: what the server writes is read back unchanged. */
  lemma DecodeEncode(xs: seq<string>)
    ensures Decode(Encode(xs)) == Some(xs)
  {
    if |xs| > 0 {
      var s := Encode(xs);
      assert s[1..] == Items(xs) + [']'];
      assert s[1] == '"';
      ParseEncodedItems(xs);
    }
  }

  /** Round trip through a stored column. */
  lemma ReadWrittenColumn(xs: seq<string>)
    ensures ReadColumn(Some(Encode(xs))) == Some(xs)
  {
    DecodeEncode(xs);
  }
}
