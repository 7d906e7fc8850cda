/** The trick feed page (`Forum`): hashtag normalisation, the search filter, and the
    submit handler with its banned and signed-out guards. */
module ForumPage {
  import opened Common
  import AuthContext

  /** A trick's `hashtags` as the feed receives it: absent or falsy, already an array
      (the server decodes them), or a comma-separated string. */
  datatype Hashtags = Missing | List(tags: seq<string>) | Text(s: string)

  /** A trick in the feed: its other fields, and its hashtags. */
  datatype Trick = Trick(fields: JsObject, hashtags: Hashtags)

  /** The new-trick form. (Its `video_file` field is not part of this model.) */
  datatype TrickForm = TrickForm(title: string, description: string, videoUrl: string, level: string, hashtags: string)

  /** The form as first shown and as reset after a post. */
  const EmptyForm := TrickForm("", "", "", "beginner", "")

  /** `.map(h => h.trim()).filter(Boolean)`. */
  function TrimmedTags(parts: seq<string>): (tags: seq<string>)
    ensures forall i :: 0 <= i < |tags| ==> Trimmed(tags[i]) && tags[i] != ""
    ensures |tags| <= |parts|
    decreases |parts|
  {
    if parts == [] then []
    else
      var t := Trim(parts[0]);
      TrimIsTrimmed(parts[0]);
      var rest := TrimmedTags(parts[1..]);
      if t == "" then rest else [t] + rest
  }

  /** `s.split(",").map(h => h.trim()).filter(Boolean)`: the submit handler's parsing. */
  function ParseTags(s: string): (tags: seq<string>)
    ensures forall i :: 0 <= i < |tags| ==> Trimmed(tags[i]) && tags[i] != "" && ',' !in tags[i]
  {
    var parts := Split(s, ',');
    TrimmedParts(parts);
    TrimmedTags(parts)
  }

  /** Trimming keeps a comma-free part comma-free. */
  lemma TrimmedParts(parts: seq<string>)
    requires forall i :: 0 <= i < |parts| ==> ',' !in parts[i]
    ensures forall i :: 0 <= i < |TrimmedTags(parts)| ==> ',' !in TrimmedTags(parts)[i]
    decreases |parts|
  {
    if parts != [] {
      TrimmedParts(parts[1..]);
      TrimSubstring(parts[0]);
    }
  }

  /** Trimming only removes characters. */
  lemma TrimSubstring(s: string)
    ensures forall c :: c in Trim(s) ==> c in s
  {
    TrimStartDropsLeadingSpace(s);
    TrimEndDropsTrailingSpace(TrimStart(s));
    forall c | c in Trim(s) ensures c in s {
      var i :| 0 <= i < |Trim(s)| && Trim(s)[i] == c;
      assert TrimStart(s)[i] == c;
      assert s[|s| - |TrimStart(s)| + i] == c;
    }
  }

  /** Tags that are trimmed, non-empty and comma-free come back unchanged from their
      comma-joined text: what the form sends is what the user typed as tags. */
  lemma {:induction false} ParseTagsOfJoined(tags: seq<string>)
    requires forall i :: 0 <= i < |tags| ==> Trimmed(tags[i]) && tags[i] != "" && ',' !in tags[i]
    ensures ParseTags(Join(tags, ',')) == tags
  {
    if tags == [] {
      assert Split([], ',') == [[]];
      assert Trim([]) == [];
    } else {
      SplitJoin(tags, ',');
      TrimmedTagsOfTrimmed(tags);
    }
  }

  lemma {:induction false} TrimmedTagsOfTrimmed(tags: seq<string>)
    requires forall i :: 0 <= i < |tags| ==> Trimmed(tags[i]) && tags[i] != ""
    ensures TrimmedTags(tags) == tags
    decreases |tags|
  {
    if tags != [] {
      TrimOfTrimmed(tags[0]);
      TrimmedTagsOfTrimmed(tags[1..]);
      assert [tags[0]] + tags[1..] == tags;
    }
  }

  /** One part gives its trim, or nothing when the trim is empty. */
  lemma TrimmedTagsOfPart(p: string)
    ensures TrimmedTags([p]) == (if Trim(p) == "" then [] else [Trim(p)])
  {
  }

  /** The parts are handled one at a time and in order: with `TrimmedTagsOfPart`, the
      tags are the non-empty trims of the parts, in the order of the parts. */
  lemma {:induction false} TrimmedTagsConcat(a: seq<string>, b: seq<string>)
    ensures TrimmedTags(a + b) == TrimmedTags(a) + TrimmedTags(b)
    decreases |a|
  {
    if a == [] {
      assert a + b == b;
    } else {
      assert (a + b)[0] == a[0];
      assert (a + b)[1..] == a[1..] + b;
      TrimmedTagsConcat(a[1..], b);
    }
  }

  /** Parsing comma-joined parts trims each part and drops the blank ones. */
  lemma {:induction false} ParseTagsOfParts(parts: seq<string>)
    requires forall i :: 0 <= i < |parts| ==> ',' !in parts[i]
    ensures ParseTags(Join(parts, ',')) == TrimmedTags(parts)
  {
    if parts == [] {
      assert Split([], ',') == [[]];
      assert Trim([]) == [];
    } else {
      SplitJoin(parts, ',');
    }
  }

  /** `normalizeHashtags`: falsy gives [], an array is kept as is, a string is parsed. */
  function NormalizeHashtags(h: Hashtags): (tags: seq<string>)
    ensures h.Missing? || h == Text("") ==> tags == []
    ensures h.List? ==> tags == h.tags
    ensures h.Text? ==> tags == ParseTags(h.s)
  {
    match h
    case Missing => []
    case List(tags) => tags
    case Text(s) => if s == "" then [] else ParseTags(s)
  }

  /** The filter's test: some normalised hashtag contains the search text, ignoring
      (ASCII) case. */
  predicate Visible(t: Trick, search: string) {
    exists i :: 0 <= i < |NormalizeHashtags(t.hashtags)| &&
      Includes(ToLower(NormalizeHashtags(t.hashtags)[i]), ToLower(search))
  }

  /** `filteredTricks`: the tricks the search shows, in feed order. */
  function FilteredTricks(tricks: seq<Trick>, search: string): (r: seq<Trick>)
    ensures |r| <= |tricks|
    ensures forall t :: t in r <==> t in tricks && Visible(t, search)
    decreases |tricks|
  {
    if tricks == [] then []
    else
      var rest := FilteredTricks(tricks[1..], search);
      assert tricks == [tricks[0]] + tricks[1..];
      if Visible(tricks[0], search) then [tricks[0]] + rest else rest
  }

  /** The filter keeps feed order and repeats: it works trick by trick. */
  lemma {:induction false} FilteredTricksConcat(a: seq<Trick>, b: seq<Trick>, search: string)
    ensures FilteredTricks(a + b, search) == FilteredTricks(a, search) + FilteredTricks(b, search)
    decreases |a|
  {
    if a == [] {
      assert a + b == b;
    } else {
      assert (a + b)[0] == a[0];
      assert (a + b)[1..] == a[1..] + b;
      FilteredTricksConcat(a[1..], b, search);
    }
  }

  /** A trick without hashtags is never shown, not even for an empty search. */
  lemma NoTagsNeverShown(t: Trick, search: string)
    requires NormalizeHashtags(t.hashtags) == []
    ensures !Visible(t, search)
  {
  }

  /** With an empty search every trick with at least one hashtag is shown. */
  lemma EmptySearchShowsTagged(t: Trick)
    requires NormalizeHashtags(t.hashtags) != []
    ensures Visible(t, "")
  {
    IncludesEmpty(ToLower(NormalizeHashtags(t.hashtags)[0]));
  }

  /** The search ignores the case of what is typed. */
  lemma SearchIgnoresCase(t: Trick, search: string)
    ensures Visible(t, search) <==> Visible(t, ToLower(search))
  {
    ToLowerIdempotent(search);
  }

  /** A hashtag shows the trick when the search is a piece of it, in any case. */
  lemma PieceOfTagShows(t: Trick, i: int, start: int, end: int)
    requires 0 <= i < |NormalizeHashtags(t.hashtags)|
    requires 0 <= start <= end <= |NormalizeHashtags(t.hashtags)[i]|
    ensures Visible(t, NormalizeHashtags(t.hashtags)[i][start..end])
  {
    var tag := NormalizeHashtags(t.hashtags)[i];
    var needle := ToLower(tag[start..end]);
    assert ToLower(tag)[start..end] == needle;
    assert OccursAt(ToLower(tag), needle, start);
    IncludesIff(ToLower(tag), needle);
  }

  /** What a submit did: `Sent` carries the request body, the form with its hashtags
      parsed (`{ ...newTrick, hashtags }`). */
  datatype Submitted = Refused | ToLogin | Sent(form: TrickForm, tags: seq<string>)

  /** The feed's state. */
  class Feed {
    var tricks: seq<Trick>
    var form: TrickForm
    var showPostForm: bool

    constructor (tricks: seq<Trick>)
      ensures this.tricks == tricks && form == EmptyForm && !showPostForm
    {
      this.tricks := tricks;
      form := EmptyForm;
      showPostForm := false;
    }

    /** `handleSubmit`, for the session's `user` and `token`: a banned user is refused
        and a signed-out one sent to log in, both before any request; otherwise the
        form goes out with its hashtags parsed, and the server's reply (None when the
        request fails) goes first in the feed and resets the form. */
    method HandleSubmit(user: Option<JsObject>, token: Option<string>, reply: Option<Trick>)
        returns (outcome: Submitted)
      modifies this
      ensures AuthContext.BannedOf(user) ==> outcome == Refused && unchanged(this)
      ensures !AuthContext.BannedOf(user) && !Present(token) ==> outcome == ToLogin && unchanged(this)
      ensures !AuthContext.BannedOf(user) && Present(token) ==> outcome == Sent(old(form), ParseTags(old(form).hashtags))
      ensures outcome.Sent? && reply.Some? ==>
        tricks == [reply.value] + old(tricks) && form == EmptyForm && !showPostForm
      ensures outcome.Sent? && reply.None? ==> unchanged(this)
    {
      if AuthContext.BannedOf(user) {
        return Refused;
      }
      if !Present(token) {
        return ToLogin;
      }
      outcome := Sent(form, ParseTags(form.hashtags));
      if reply.Some? {
        tricks := [reply.value] + tricks;
        form := EmptyForm;
        showPostForm := false;
      }
    }
  }
}
