/**
 * The few Go string operations that message.go relies on: strings.HasSuffix,
 * strings.Index for one character, strings.Split and strings.Join with a
 * one-character separator, and filepath.ToSlash; and the path heuristic built
 * from them that drops the first segment of a video path.
 */
module GoStrings {

  /** strings.HasSuffix: `s` ends with `suffix`. */
  function HasSuffix(s: string, suffix: string): (r: bool)
    ensures r <==> exists k :: 0 <= k <= |s| && s[k..] == suffix
  {
    |suffix| <= |s| && s[|s| - |suffix|..] == suffix
  }

  /** strings.IndexByte: the position of the first occurrence of `c` in `s`. */
  function IndexOf(s: string, c: char): (i: nat)
    requires c in s
    ensures i < |s| && s[i] == c
    ensures c !in s[..i]
  {
    if s[0] == c then 0
    else
      var j := IndexOf(s[1..], c);
      assert s[..j + 1] == [s[0]] + s[1..][..j];
      j + 1
  }

  /**
   * strings.Split with a one-character separator: the pieces of `s` between
   * occurrences of `sep`. There is always at least one piece; the empty
   * string gives the single piece "".
   */
  function Split(s: string, sep: char): (parts: seq<string>)
    ensures |parts| >= 1
    ensures forall p :: p in parts ==> sep !in p
    decreases |s|
  {
    if sep in s then
      var i := IndexOf(s, sep);
      [s[..i]] + Split(s[i + 1..], sep)
    else
      [s]
  }

  /**
   * strings.Join with a one-character separator. Splitting the result again
   * gives back the pieces, as long as there is at least one and none of them
   * contains the separator.
   */
  function Join(parts: seq<string>, sep: char): (r: string)
    ensures |parts| >= 1 && (forall p :: p in parts ==> sep !in p) ==> Split(r, sep) == parts
  {
    if |parts| == 0 then ""
    else if |parts| == 1 then parts[0]
    else
      var rest := Join(parts[1..], sep);
      SplitJoinStep(parts, rest, sep);
      parts[0] + [sep] + rest
  }

  /** The inductive step of Join's contract: one more piece in front of a joined tail. */
  lemma SplitJoinStep(parts: seq<string>, rest: string, sep: char)
    requires |parts| >= 2
    requires (forall p :: p in parts[1..] ==> sep !in p) ==> Split(rest, sep) == parts[1..]
    ensures (forall p :: p in parts ==> sep !in p) ==> Split(parts[0] + [sep] + rest, sep) == parts
  {
    if forall p :: p in parts ==> sep !in p {
      assert parts[0] in parts;
      assert forall p :: p in parts[1..] ==> p in parts;
      SplitAtFirst(parts[0], rest, sep);
      assert parts == [parts[0]] + parts[1..];
    }
  }

  /** Splitting at a separator whose left side holds none: the left side is the first piece. */
  lemma SplitAtFirst(a: string, b: string, sep: char)
    requires sep !in a
    ensures Split(a + [sep] + b, sep) == [a] + Split(b, sep)
  {
    var s := a + [sep] + b;
    assert s[|a|] == sep;
    var i := IndexOf(s, sep);
    assert s[..i] == a && s[i + 1..] == b;
  }

  /** Joining the pieces of a split with the same separator gives back the string. */
  lemma {:induction false} JoinSplit(s: string, sep: char)
    ensures Join(Split(s, sep), sep) == s
    decreases |s|
  {
    if sep in s {
      var i := IndexOf(s, sep);
      var parts := Split(s, sep);
      var rest := Split(s[i + 1..], sep);
      assert parts == [s[..i]] + rest;
      assert |parts| >= 2 && parts[0] == s[..i] && parts[1..] == rest;
      assert Join(parts, sep) == s[..i] + [sep] + Join(rest, sep);
      JoinSplit(s[i + 1..], sep);
      assert s == s[..i] + [sep] + s[i + 1..];
    }
  }

  /**
   * filepath.ToSlash: every occurrence of the platform's path separator
   * becomes '/'. On a platform whose separator is '/' it is the identity.
   */
  function ToSlash(path: string, separator: char): (r: string)
    ensures |r| == |path|
    ensures forall i :: 0 <= i < |path| ==> r[i] == (if path[i] == separator then '/' else path[i])
  {
    if separator == '/' then path
    else seq(|path|, i requires 0 <= i < |path| => if path[i] == separator then '/' else path[i])
  }

  /**
   * The video-path heuristic of message.go: split on '/', and when there is
   * more than one piece, join all pieces but the first. The result is what
   * follows the first '/', or the whole path when it has none.
   */
  function StripFirstSegment(path: string): (r: string)
    ensures '/' !in path ==> r == path
    ensures '/' in path ==>
      |r| < |path| && path[|path| - |r|..] == r
      && path[|path| - |r| - 1] == '/' && '/' !in path[..|path| - |r| - 1]
  {
    var parts := Split(path, '/');
    if |parts| > 1 then
      var i := IndexOf(path, '/');
      assert parts[1..] == Split(path[i + 1..], '/');
      JoinSplit(path[i + 1..], '/');
      Join(parts[1..], '/')
    else
      path
  }

  /** An example of the heuristic: a path without '/' is kept as it is. */
  lemma StripFirstSegmentKeepsBareName(p: string)
    requires p == "file.mp4"
    ensures StripFirstSegment(p) == "file.mp4"
  {
  }

  /** When the first '/' of `path` is at `i`, the heuristic keeps what follows it. */
  lemma StripFirstSegmentAt(path: string, i: nat)
    requires i < |path| && path[i] == '/' && '/' !in path[..i]
    ensures StripFirstSegment(path) == path[i + 1..]
  {
  }

  /** An example of the heuristic: the leading segment is dropped. */
  lemma StripFirstSegmentDropsRoot(p: string)
    requires p == "root/sub/file.mp4"
    ensures StripFirstSegment(p) == "sub/file.mp4"
  {
    assert p[..4] == "root" && p[4] == '/';
    StripFirstSegmentAt(p, 4);
  }

  /** The suffix test on two example talker identifiers: a personal account and a group chat. */
  lemma HasSuffixExamples()
    ensures !HasSuffix("alice", "@chatroom")
    ensures HasSuffix("12345@chatroom", "@chatroom")
  {
  }
}
