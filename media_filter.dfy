/**
 * The extension filters applied to a folder listing: the Songs screen keeps
 * `mp3` files, the Video screen keeps `mp4`, `mov` and `m4v` files, both
 * comparing the lower-cased extension and both keeping the listing's order.
 */
module MediaFilter {
  import opened Text
  import opened Paths

  /** a occurs in b in order, possibly with gaps. */
  predicate IsSubsequence<T(==)>(a: seq<T>, b: seq<T>) {
    if a == [] then true
    else if b == [] then false
    else (a[0] == b[0] && IsSubsequence(a[1..], b[1..])) || IsSubsequence(a, b[1..])
  }

  /** Swift's `filter`: the elements of xs that satisfy keep, in their order and with their multiplicity. */
  function Keep<T(==, !new)>(xs: seq<T>, keep: T -> bool): (r: seq<T>)
    ensures forall x :: x in r <==> x in xs && keep(x)
    ensures forall x :: multiset(r)[x] == if keep(x) then multiset(xs)[x] else 0
    ensures IsSubsequence(r, xs)
  {
    if xs == [] then []
    else
      assert xs == [xs[0]] + xs[1..];
      if keep(xs[0]) then [xs[0]] + Keep(xs[1..], keep) else Keep(xs[1..], keep)
  }

  predicate IsSongFile(name: string) {
    Lower(PathExtension(name)) == "mp3"
  }

  const VideoExtensions: seq<string> := ["mp4", "mov", "m4v"]

  predicate IsVideoFile(name: string) {
    Lower(PathExtension(name)) in VideoExtensions
  }

  /** The listed names whose lower-cased extension is mp3, in listing order. */
  function SongFiles(files: seq<string>): (songs: seq<string>)
    ensures forall n :: n in songs <==> n in files && IsSongFile(n)
    ensures forall n :: multiset(songs)[n] == if IsSongFile(n) then multiset(files)[n] else 0
    ensures IsSubsequence(songs, files)
  {
    Keep(files, IsSongFile)
  }

  /** The listed names whose lower-cased extension is one of the video extensions, in listing order. */
  function VideoFiles(files: seq<string>): (videos: seq<string>)
    ensures forall n :: n in videos <==> n in files && IsVideoFile(n)
    ensures forall n :: multiset(videos)[n] == if IsVideoFile(n) then multiset(files)[n] else 0
    ensures IsSubsequence(videos, files)
  {
    Keep(files, IsVideoFile)
  }

  /** The song test spelled out: the extension is "mp3" in any mix of letter case. */
  lemma SongExtensionCases(name: string)
    ensures IsSongFile(name) <==>
      var e := PathExtension(name);
      |e| == 3 && e[0] in "mM" && e[1] in "pP" && e[2] == '3'
  {
    var e := PathExtension(name);
    if |e| == 3 {
      assert Lower(e) == [AsciiLower(e[0]), AsciiLower(e[1]), AsciiLower(e[2])];
    }
  }

  /** The video test spelled out, letter case ignored. */
  lemma VideoExtensionCases(name: string)
    ensures IsVideoFile(name) <==>
      var e := PathExtension(name);
      |e| == 3 && e[0] in "mM" &&
      ((e[1] in "pP" && e[2] == '4') || (e[1] in "oO" && e[2] in "vV") || (e[1] == '4' && e[2] in "vV"))
  {
    var e := PathExtension(name);
    if |e| == 3 {
      assert Lower(e) == [AsciiLower(e[0]), AsciiLower(e[1]), AsciiLower(e[2])];
    }
  }
}
