/** Parsing of the AI service's free-text answer into Instagram post records
    (`_parse_instagram_posts`) and the wrapper that turns any failure into an
    error record (`generate_instagram_posts`). */
module InstagramPosts {

  import opened Wrappers
  import opened Strings

  /** A post record; each field is present or absent, as a dict key is. */
  datatype Post = Post(
    caption: Option<string>,
    hashtags: Option<string>,
    bestTime: Option<string>,
    contentType: Option<string>,
    error: Option<string>)

  /** The empty dict `{}` a post starts as. */
  const NoFields: Post := Post(None, None, None, None, None)

  /** A dict is falsy exactly when it has no key. */
  predicate IsEmpty(p: Post) {
    p == NoFields
  }

  /** What a stripped line does to the post being collected. */
  datatype LineKind = Header | CaptionLine | HashtagLine | TimeLine | TypeLine | OtherLine

  /** The first test a stripped line passes: a post header (case-sensitive),
      else the first keyword found in its lower-cased text. */
  function KindOf(line: string): (k: LineKind)
    ensures k == CaptionLine ==> ':' in line
  {
    if StartsWith(line, "Post ") || StartsWith(line, "**Post") then Header
    else
      var l := Lower(line);
      if Contains(l, "caption:") then CaptionHasColon(line); CaptionLine
      else if Contains(l, "hashtag") then HashtagLine
      else if Contains(l, "time") || Contains(l, "posting") then TimeLine
      else if Contains(l, "type") then TypeLine
      else OtherLine
  }

  predicate IsFieldLine(k: LineKind) {
    k == CaptionLine || k == HashtagLine || k == TimeLine || k == TypeLine
  }

  /** A field line with no ':' makes `line.split(':', 1)[1]` raise. */
  predicate Crashes(line: string) {
    IsFieldLine(KindOf(line)) && ':' !in line
  }

  /** Some line, once stripped, makes the parser raise. */
  predicate SomeLineCrashes(lines: seq<string>) {
    exists i :: 0 <= i < |lines| && Crashes(Strip(lines[i]))
  }

  /** Every line, once stripped, is a header or carries no keyword. */
  predicate NoFieldLines(lines: seq<string>) {
    forall i :: 0 <= i < |lines| ==> !IsFieldLine(KindOf(Strip(lines[i])))
  }

  /** `str(IndexError)` as Python reports it. */
  const IndexErrorText: string := "list index out of range"

  /** Stores `v` under the key selected by a field line. */
  function SetField(p: Post, k: LineKind, v: string): (r: Post)
    requires IsFieldLine(k)
    ensures !IsEmpty(r)
    ensures r.caption == (if k == CaptionLine then Some(v) else p.caption)
    ensures r.hashtags == (if k == HashtagLine then Some(v) else p.hashtags)
    ensures r.bestTime == (if k == TimeLine then Some(v) else p.bestTime)
    ensures r.contentType == (if k == TypeLine then Some(v) else p.contentType)
    ensures r.error == p.error
  {
    match k
    case CaptionLine => p.(caption := Some(v))
    case HashtagLine => p.(hashtags := Some(v))
    case TimeLine => p.(bestTime := Some(v))
    case TypeLine => p.(contentType := Some(v))
  }

  /** Appends the post being collected when it is non-empty. */
  function Close(posts: seq<Post>, current: Post): (r: seq<Post>)
    ensures IsEmpty(current) ==> r == posts
    ensures !IsEmpty(current) ==> r == posts + [current]
  {
    if IsEmpty(current) then posts else posts + [current]
  }

  predicate NoneEmpty(posts: seq<Post>) {
    forall i :: 0 <= i < |posts| ==> !IsEmpty(posts[i])
  }

  /** The loop of the parser over the remaining lines, with the posts closed so
      far and the post being collected. Only non-empty posts are ever closed,
      and posts already closed stay first and in order. */
  function ParseLines(lines: seq<string>, posts: seq<Post>, current: Post): (r: Result<seq<Post>, string>)
    requires NoneEmpty(posts)
    ensures r.Ok? ==> NoneEmpty(r.value)
    ensures r.Ok? ==> |posts| <= |r.value| && r.value[..|posts|] == posts
    ensures r.Err? ==> r.error == IndexErrorText
    decreases |lines|
  {
    if |lines| == 0 then Ok(Close(posts, current))
    else
      var line := Strip(lines[0]);
      var k := KindOf(line);
      if k == Header then ParseLines(lines[1..], Close(posts, current), NoFields)
      else if k == OtherLine then ParseLines(lines[1..], posts, current)
      else
        match AfterFirst(line, ':')
        case None => Err(IndexErrorText)
        case Some(rest) => ParseLines(lines[1..], posts, SetField(current, k, Strip(rest)))
  }

  /** What one line does: a header closes the post being collected (kept
      only when non-empty) and starts an empty one; a caption, hashtag, time
      or type line sets that field to the stripped text after its first ':'
      (raising when there is none); any other line changes nothing. */
  lemma ParseLinesStep(line: string, lines: seq<string>, posts: seq<Post>, current: Post)
    requires NoneEmpty(posts)
    ensures var l := Strip(line); var k := KindOf(l); var r := ParseLines([line] + lines, posts, current);
      && (k == Header ==> r == ParseLines(lines, Close(posts, current), NoFields))
      && (k == OtherLine ==> r == ParseLines(lines, posts, current))
      && (IsFieldLine(k) && ':' !in l ==> r == Err(IndexErrorText))
      && (IsFieldLine(k) && ':' in l ==>
            exists i | 0 <= i < |l| :: l[i] == ':' && ':' !in l[..i]
              && r == ParseLines(lines, posts, SetField(current, k, Strip(l[i + 1..]))))
  {
    var l := Strip(line);
    assert ([line] + lines)[0] == line && ([line] + lines)[1..] == lines;
    if IsFieldLine(KindOf(l)) && ':' in l {
      AfterFirstSplits(l, ':');
    }
  }

  /** The record returned when no post was collected. */
  function Fallback(response: string): Post {
    Post(Some(response), Some(""), Some("Peak hours"), Some("Static"), None)
  }

  /** `_parse_instagram_posts`: `Err` where Python raises. A successful parse
      never returns an empty list nor an empty post. */
  function ParseInstagramPosts(response: string): (r: Result<seq<Post>, string>)
    ensures r.Ok? ==> |r.value| >= 1 && NoneEmpty(r.value)
    ensures r.Err? ==> r.error == IndexErrorText
  {
    match ParseLines(Split(response, '\n'), [], NoFields)
    case Err(e) => Err(e)
    case Ok(posts) => Ok(if |posts| == 0 then [Fallback(response)] else posts)
  }

  /** The parser raises exactly when some line, once stripped, is a field line
      without a ':' (wherever it stands). */
  lemma {:induction false} ParseLinesFailsIff(lines: seq<string>, posts: seq<Post>, current: Post)
    requires NoneEmpty(posts)
    ensures ParseLines(lines, posts, current).Err? <==> SomeLineCrashes(lines)
    decreases |lines|
  {
    if |lines| > 0 {
      var line := Strip(lines[0]);
      var k := KindOf(line);
      if k == Header {
        ParseLinesFailsIff(lines[1..], Close(posts, current), NoFields);
      } else if k == OtherLine {
        ParseLinesFailsIff(lines[1..], posts, current);
      } else if ':' in line {
        var rest := AfterFirst(line, ':').value;
        ParseLinesFailsIff(lines[1..], posts, SetField(current, k, Strip(rest)));
      } else {
        assert Crashes(Strip(lines[0]));
      }
      if k == Header || k == OtherLine || ':' in line {
        assert !Crashes(Strip(lines[0]));
        assert forall i :: 1 <= i < |lines| ==> lines[i] == lines[1..][i - 1];
        assert SomeLineCrashes(lines) <==> SomeLineCrashes(lines[1..]);
      }
    }
  }

  lemma ParseFailsIff(response: string)
    ensures ParseInstagramPosts(response).Err? <==> SomeLineCrashes(Split(response, '\n'))
  {
    ParseLinesFailsIff(Split(response, '\n'), [], NoFields);
  }

  /** A "caption:" line always holds a ':', so caption lines never raise. */
  lemma CaptionLineNeverCrashes(line: string)
    requires KindOf(line) == CaptionLine
    ensures !Crashes(line)
  {
  }

  /** "caption:" found in the lower-cased line means the line has a ':'. */
  lemma CaptionHasColon(line: string)
    requires Contains(Lower(line), "caption:")
    ensures ':' in line
  {
    var l := Lower(line);
    var i :| 0 <= i <= |l| - 8 && OccursAt(l, "caption:", i);
    assert l[i + 7] == l[i..i + 8][7] == ':';
    assert LowerChar(line[i + 7]) == ':';
    assert line[i + 7] == ':';
  }

  /** Lines that are all headers or keyword-free leave nothing collected. */
  lemma {:induction false} NoFieldLinesCollectNothing(lines: seq<string>, posts: seq<Post>)
    requires NoneEmpty(posts)
    requires NoFieldLines(lines)
    ensures ParseLines(lines, posts, NoFields) == Ok(posts)
    decreases |lines|
  {
    if |lines| > 0 {
      assert forall i :: 1 <= i < |lines| ==> lines[i] == lines[1..][i - 1];
      assert !IsFieldLine(KindOf(Strip(lines[0])));
      NoFieldLinesCollectNothing(lines[1..], posts);
    }
  }

  /** An answer with no field line at all yields the single fallback record
      whose caption is the whole answer. */
  lemma FallbackWhenNoFields(response: string)
    requires NoFieldLines(Split(response, '\n'))
    ensures ParseInstagramPosts(response) == Ok([Fallback(response)])
  {
    NoFieldLinesCollectNothing(Split(response, '\n'), []);
  }

  /** The record `generate_instagram_posts` returns on any failure. */
  function ErrorPost(e: string): Post {
    Post(Some("Error generating posts"), None, None, None, Some(e))
  }

  /** `generate_instagram_posts` given the AI service's outcome: a failed call
      or a raising parse becomes a one-element error list; otherwise the parsed
      posts. The result is never empty and holds no empty post. */
  function GenerateInstagramPosts(answer: Result<string, string>): (r: seq<Post>)
    ensures |r| >= 1 && NoneEmpty(r)
    ensures answer.Err? ==> r == [ErrorPost(answer.error)]
    ensures answer.Ok? && ParseInstagramPosts(answer.value).Err? ==> r == [ErrorPost(IndexErrorText)]
    ensures answer.Ok? && ParseInstagramPosts(answer.value).Ok? ==> r == ParseInstagramPosts(answer.value).value
  {
    match answer
    case Err(e) => [ErrorPost(e)]
    case Ok(text) =>
      match ParseInstagramPosts(text)
      case Err(e) => [ErrorPost(e)]
      case Ok(posts) => posts
  }
}
