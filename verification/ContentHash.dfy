/**
  The byte stream under the content hash: every file of the tree, in path order, framed by decimal
  lengths.  A byte is a character here; the hash itself is not modelled.
*/
module ContentHash {
  import opened Basics
  import opened Decimal
  import opened StringOrder

  datatype File = File(path: string, data: string)

  /** One file: "<pathlen>\n<path><datalen>\n<data>". */
  function Frame(f: File): string { Text(|f.path|) + "\n" + f.path + Text(|f.data|) + "\n" + f.data }

  function Stream(files: seq<File>): string { if files == [] then "" else Frame(files[0]) + Stream(files[1..]) }

  function FilesOf(paths: seq<string>, tree: map<string, string>): seq<File>
    requires forall p | p in paths :: p in tree
  {
    seq(|paths|, i requires 0 <= i < |paths| => File(paths[i], tree[paths[i]]))
  }

  /** A walk of the tree: every path once, in any order. */
  ghost predicate Walks(walk: seq<string>, tree: map<string, string>) {
    NoRepeats(walk) && forall p :: p in walk <==> p in tree
  }

  /** The stream as it is written: for each file in turn, the length of its path, a newline, the path, the length of
      its content, a newline, the content. */
  lemma {:induction false} StreamIs(files: seq<File>)
    ensures Stream(files) ==
            Flatten(Each(files, (f: File) => Text(|f.path|) + "\n" + f.path + Text(|f.data|) + "\n" + f.data))
  {
    var frame := (f: File) => Text(|f.path|) + "\n" + f.path + Text(|f.data|) + "\n" + f.data;
    if files != [] {
      hide Text, Flatten, Each;
      StreamIs(files[..|files| - 1]);
      StreamSnoc(files);
      FlattenNext(files, frame);
    }
  }

  lemma {:induction false} StreamSnoc(files: seq<File>)
    requires files != []
    ensures Stream(files) == Stream(files[..|files| - 1]) + Frame(files[|files| - 1])
  {
    hide Frame;
    if |files| > 1 {
      StreamSnoc(files[1..]);
      assert files[..|files| - 1][1..] == files[1..][..|files| - 2] && files[..|files| - 1][0] == files[0];
      Assoc(Frame(files[0]), Stream(files[1..][..|files| - 2]), Frame(files[|files| - 1]));
    } else {
      assert files[..0] == [] && files[1..] == [];
      assert Frame(files[0]) + "" == "" + Frame(files[0]) == Frame(files[0]);
    }
  }

  // ---- unique decodability --------------------------------------------------------------------

  /** A length and a newline in front of a text can be read off. */
  lemma LengthCancels(m: nat, x: string, n: nat, y: string)
    requires Text(m) + "\n" + x == Text(n) + "\n" + y
    ensures m == n && x == y
  {
    assert Text(m) + "\n" + x == Text(m) + ("\n" + x) && Text(n) + "\n" + y == Text(n) + ("\n" + y);
    TextCancels(m, "\n" + x, n, "\n" + y);
    assert ("\n" + x)[1..] == x && ("\n" + y)[1..] == y;
  }

  lemma SplitAt(a: string, x: string, b: string, y: string)
    requires a + x == b + y && |a| == |b|
    ensures a == b && x == y
  {
    assert (a + x)[..|a|] == a && (b + y)[..|a|] == b && (a + x)[|a|..] == x && (b + y)[|a|..] == y;
  }

  /** A frame and what follows it, grouped from the right. */
  lemma FrameIs(f: File, x: string)
    ensures Frame(f) + x == Text(|f.path|) + "\n" + (f.path + (Text(|f.data|) + "\n" + (f.data + x)))
  {
    hide Text;
  }

  lemma FrameCancels(f: File, x: string, g: File, y: string)
    requires Frame(f) + x == Frame(g) + y
    ensures f == g && x == y
  {
    hide Frame, Text;
    var (fd, gd) := (Text(|f.data|) + "\n" + (f.data + x), Text(|g.data|) + "\n" + (g.data + y));
    FrameIs(f, x);
    FrameIs(g, y);
    LengthCancels(|f.path|, f.path + fd, |g.path|, g.path + gd);
    SplitAt(f.path, fd, g.path, gd);
    LengthCancels(|f.data|, f.data + x, |g.data|, g.data + y);
    SplitAt(f.data, x, g.data, y);
  }

  /** Two file lists with the same stream are the same list, whatever their paths and contents. */
  lemma {:induction false} StreamIsInjective(a: seq<File>, b: seq<File>)
    requires Stream(a) == Stream(b)
    ensures a == b
  {
    if a != [] {
      FrameCancels(a[0], Stream(a[1..]), b[0], Stream(b[1..]));
      StreamIsInjective(a[1..], b[1..]);
      assert a == [a[0]] + a[1..] && b == [b[0]] + b[1..];
    }
  }

  // ---- the whole computation ------------------------------------------------------------------

  lemma SortedWalk(walk: seq<string>, tree: map<string, string>)
    requires Walks(walk, tree)
    ensures Walks(Sort(walk), tree)
  {
    SortKeepsNoRepeats(walk);
  }

  /** The stream of a tree, from any walk of it. */
  ghost function Input(walk: seq<string>, tree: map<string, string>): string
    requires Walks(walk, tree)
  {
    SortedWalk(walk, tree);
    Stream(FilesOf(Sort(walk), tree))
  }

  /** The loop: sort the walk, then write each file's frame. */
  method HashInput(walk: seq<string>, tree: map<string, string>) returns (out: string)
    requires Walks(walk, tree)
    ensures out == Input(walk, tree)
  {
    SortedWalk(walk, tree);
    var paths := Sort(walk);
    ghost var files := FilesOf(paths, tree);
    out := "";
    assert files[0..] == files && files[|files|..] == [];
    for i := 0 to |paths|
      invariant Stream(files) == out + Stream(files[i..])
    {
      var f := File(paths[i], tree[paths[i]]);
      var header := Text(|f.path|) + "\n" + f.path + Text(|f.data|) + "\n";
      Assoc(out, header + f.data, Stream(files[i + 1..]));
      Assoc(out, header, f.data);
      out := out + header;
      out := out + f.data;
    }
  }

  /** The hash input identifies the tree: it does not depend on the order of the walk, and two trees have
      the same input exactly when they have the same paths with the same contents. */
  lemma InputIdentifiesTree(
    walk1: seq<string>, tree1: map<string, string>, walk2: seq<string>, tree2: map<string, string>)
    requires Walks(walk1, tree1) && Walks(walk2, tree2)
    ensures Input(walk1, tree1) == Input(walk2, tree2) <==> tree1 == tree2
  {
    SortedWalk(walk1, tree1);
    SortedWalk(walk2, tree2);
    var (f1, f2) := (FilesOf(Sort(walk1), tree1), FilesOf(Sort(walk2), tree2));
    if tree1 == tree2 {
      SameElements(walk1, walk2);
      SameSort(walk1, walk2);
    }
    if Stream(f1) == Stream(f2) {
      StreamIsInjective(f1, f2);
      assert |Sort(walk1)| == |f1| == |f2| == |Sort(walk2)|;
      forall i | 0 <= i < |f1|
        ensures Sort(walk1)[i] == Sort(walk2)[i] && tree1[Sort(walk1)[i]] == tree2[Sort(walk1)[i]]
      {
        assert f1[i] == f2[i];
      }
      assert Sort(walk1) == Sort(walk2);
      assert tree1.Keys == tree2.Keys;
      forall p | p in tree1 ensures tree1[p] == tree2[p] {
        assert p in Sort(walk1);
      }
    }
  }
}
