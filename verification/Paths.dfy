/** Paths as `std::path::Path` takes them apart on Unix. */
module Paths {
  import opened Base

  datatype Component = RootDir | CurDir | ParentDir | Normal(name: string)

  /** The components of a path: repeated separators and inner `.` disappear. */
  function Components(path: string): seq<Component> {
    (if path != "" && path[0] == '/' then [RootDir] else []) + PieceComponents(SplitOn(path, '/'))
  }

  function PieceComponents(pieces: seq<string>): seq<Component> {
    if pieces == [] then []
    else
      var before, piece := PieceComponents(pieces[..|pieces| - 1]), pieces[|pieces| - 1];
      if piece == "" then before
      else if piece == "." then (if |pieces| == 1 then before + [CurDir] else before)
      else if piece == ".." then before + [ParentDir]
      else before + [Normal(piece)]
  }

  /** `Path::file_name`: the last component, if it is a name. */
  function FileName(path: string): Option<string> {
    var components := Components(path);
    if components != [] && components[|components| - 1].Normal? then Some(components[|components| - 1].name) else None
  }

  predicate IsPlainName(name: string) {
    name !in {"", ".", ".."} && '/' !in name
  }

  function JoinPath(names: seq<string>): string
    requires names != []
  {
    if |names| == 1 then names[0] else JoinPath(names[..|names| - 1]) + ("/" + names[|names| - 1])
  }

  lemma {:induction false} JoinedPathSplits(names: seq<string>)
    requires names != [] && forall name <- names :: '/' !in name
    ensures SplitOn(JoinPath(names), '/') == names
  {
    hide PieceComponents, SplitOn;
    var before, last := names[..|names| - 1], names[|names| - 1];
    assert last in names && names == before + [last];
    if |names| == 1 {
      SplitNone(last, '/');
    } else {
      JoinedPathSplits(before);
      SplitOneMore(JoinPath(before), last, '/');
    }
  }

  lemma {:induction false} SplitJoins(path: string)
    ensures JoinPath(SplitOn(path, '/')) == path
  {
    if path != "" {
      var front, last := path[..|path| - 1], path[|path| - 1];
      var before := SplitOn(front, '/');
      SplitJoins(front);
      if last == '/' {
        JoinOneMore(before, []);
        assert front + ("/" + []) == path;
      } else {
        JoinLonger(before[..|before| - 1], before[|before| - 1], last);
        assert before[..|before| - 1] + [before[|before| - 1]] == before;
      }
    }
  }

  lemma JoinOneMore(names: seq<string>, name: string)
    requires names != []
    ensures JoinPath(names + [name]) == JoinPath(names) + ("/" + name)
  {
    assert (names + [name])[..|names|] == names;
  }

  lemma JoinOne(name: string)
    ensures JoinPath([name]) == name
  {
  }

  lemma JoinLonger(front: seq<string>, last: string, c: char)
    ensures JoinPath(front + [last + [c]]) == JoinPath(front + [last]) + [c]
  {
    hide JoinPath;
    if front == [] {
      assert front + [last] == [last] && front + [last + [c]] == [last + [c]];
      JoinOne(last);
      JoinOne(last + [c]);
    } else {
      JoinOneMore(front, last);
      JoinOneMore(front, last + [c]);
      assert JoinPath(front) + ("/" + (last + [c])) == (JoinPath(front) + ("/" + last)) + [c];
    }
  }

  /** The pieces of a path: text without separators that makes the path when a separator is put between. */
  predicate ArePieces(pieces: seq<string>, path: string) {
    pieces != [] && (forall piece <- pieces :: '/' !in piece) && JoinPath(pieces) == path
  }

  /** Every path has pieces, and in one way only. */
  lemma PiecesAre(path: string)
    ensures ArePieces(SplitOn(path, '/'), path)
    ensures forall pieces :: ArePieces(pieces, path) ==> pieces == SplitOn(path, '/')
  {
    hide JoinPath, SplitOn;
    SplitJoins(path);
    forall pieces | ArePieces(pieces, path) ensures pieces == SplitOn(path, '/') { JoinedPathSplits(pieces); }
  }

  predicate IsFiller(piece: string) {
    piece == "" || piece == "."
  }

  /** Empty pieces and dots behind the first piece are no components. */
  lemma {:induction false} FillersVanish(pieces: seq<string>, k: nat)
    requires 0 < k <= |pieces| && forall j :: k <= j < |pieces| ==> IsFiller(pieces[j])
    ensures PieceComponents(pieces) == PieceComponents(pieces[..k])
    decreases |pieces|
  {
    if k < |pieces| {
      var front := pieces[..|pieces| - 1];
      FillersVanish(front, k);
      assert front[..k] == pieces[..k];
    } else {
      assert pieces[..k] == pieces;
    }
  }

  /** The last component that is a name is the last piece that is no filler. */
  lemma {:induction false} PeelLast(pieces: seq<string>) returns (k: nat)
    requires var components := PieceComponents(pieces); components != [] && components[|components| - 1].Normal?
    ensures k < |pieces| && (forall j :: k < j < |pieces| ==> IsFiller(pieces[j]))
    ensures !IsFiller(pieces[k]) && pieces[k] != ".."
    ensures PieceComponents(pieces) == PieceComponents(pieces[..k]) + [Normal(pieces[k])]
    decreases |pieces|
  {
    var front, piece := pieces[..|pieces| - 1], pieces[|pieces| - 1];
    if IsFiller(piece) {
      k := PeelLast(front);
      assert front[..k] == pieces[..k];
    } else {
      k := |pieces| - 1;
    }
  }

  lemma NameEnds(pieces: seq<string>, k: nat)
    requires k < |pieces| && !IsFiller(pieces[k]) && pieces[k] != ".."
    requires forall j :: k < j < |pieces| ==> IsFiller(pieces[j])
    ensures PieceComponents(pieces) == PieceComponents(pieces[..k]) + [Normal(pieces[k])]
  {
    FillersVanish(pieces, k + 1);
    assert pieces[..k + 1][..k] == pieces[..k];
  }

  /** The file name of a path is its last piece, up to empty pieces and dots, if that is a plain name. */
  lemma {:induction false} FileNameIsExact(path: string, name: string)
    ensures FileName(path) == Some(name)
       <==> IsPlainName(name) && exists pieces, k ::
              ArePieces(pieces, path) && 0 <= k < |pieces| && pieces[k] == name
              && forall j :: k < j < |pieces| ==> IsFiller(pieces[j])
  {
    hide PieceComponents, SplitOn, JoinPath;
    PiecesAre(path);
    var pieces := SplitOn(path, '/');
    var components := PieceComponents(pieces);
    if FileName(path) == Some(name) {
      var k := PeelLast(pieces);
      assert pieces[k] in pieces;
    }
    forall k | IsPlainName(name) && 0 <= k < |pieces| && pieces[k] == name
               && forall j :: k < j < |pieces| ==> IsFiller(pieces[j])
      ensures FileName(path) == Some(name)
    {
      NameEnds(pieces, k);
    }
  }

  /** So a program under any directory goes by its own name, as `/usr/bin/tmux` by `tmux`. */
  lemma ProgramInDirectory(directory: string, name: string)
    requires IsPlainName(name)
    ensures FileName(directory + "/" + name) == Some(name) && FileName(name) == Some(name)
  {
    hide PieceComponents, SplitOn, JoinPath, FileName;
    PiecesAre(directory + "/" + name);
    PiecesAre(name);
    SplitOneMore(directory, name, '/');
    SplitNone(name, '/');
    assert directory + "/" + name == directory + (['/'] + name);
    var pieces := SplitOn(directory, '/') + [name];
    assert pieces[|pieces| - 1] == name;
    FileNameIsExact(directory + "/" + name, name);
    assert [name][0] == name;
    FileNameIsExact(name, name);
  }

  predicate AllNames(components: seq<Component>) {
    forall component <- components :: component.Normal?
  }

  lemma OneMoreName(components: seq<Component>, component: Component)
    ensures AllNames(components + [component]) <==> AllNames(components) && component.Normal?
  {
    if AllNames(components + [component]) {
      assert component in components + [component];
      assert forall other <- components :: other in components + [component];
    }
  }

  /** All components are names exactly when no piece is `..` and the first one is not `.`. */
  lemma {:induction false} NamesOnly(pieces: seq<string>)
    requires pieces != []
    ensures AllNames(PieceComponents(pieces)) <==> ".." !in pieces && pieces[0] != "."
  {
    hide AllNames;
    var front, piece := pieces[..|pieces| - 1], pieces[|pieces| - 1];
    assert pieces == front + [piece];
    if front == [] {
      NoNames();
    } else {
      NamesOnly(front);
    }
    OneMoreName(PieceComponents(front), CurDir);
    OneMoreName(PieceComponents(front), ParentDir);
    OneMoreName(PieceComponents(front), Normal(piece));
  }

  lemma NoNames()
    ensures AllNames([]) && PieceComponents([]) == []
  {
  }

  /** A path that stays inside the directory it is relative to: no root, no leading `.`, no `..`. */
  ghost predicate StaysInside(path: string) {
    && path != "" && path[0] != '/'
    && exists pieces :: ArePieces(pieces, path) && ".." !in pieces && pieces[0] != "."
  }

  lemma {:induction false} InsideIsNamesOnly(path: string)
    ensures StaysInside(path) <==> path != "" && AllNames(Components(path))
  {
    hide PieceComponents, SplitOn, JoinPath;
    PiecesAre(path);
    NamesOnly(SplitOn(path, '/'));
    var rest := PieceComponents(SplitOn(path, '/'));
    assert RootDir in [RootDir] + rest;
    assert [] + rest == rest;
  }

  /** The pieces `first`, a plain name and `last`, in this order, the first one in front and nothing else but empty
      pieces and dots. */
  ghost predicate IsThreeDeep(path: string, first: string, last: string) {
    exists pieces, i, j ::
      ArePieces(pieces, path) && 0 < i < j < |pieces|
      && pieces[0] == first && IsPlainName(pieces[i]) && pieces[j] == last
      && forall k :: 0 < k < |pieces| && k != i && k != j ==> IsFiller(pieces[k])
  }

  lemma {:induction false} NoComponents(pieces: seq<string>)
    requires PieceComponents(pieces) == [] && pieces != []
    ensures pieces[0] == ""
  {
    if |pieces| > 1 { NoComponents(pieces[..|pieces| - 1]); }
  }

  lemma StartsEmpty(pieces: seq<string>, path: string)
    requires ArePieces(pieces, path) && |pieces| > 1 && pieces[0] == ""
    ensures path != "" && path[0] == '/'
  {
    if |pieces| == 2 {
      assert pieces[..1] == [""] && JoinPath([""]) == "";
    } else {
      var front := pieces[..|pieces| - 1];
      assert forall piece <- front :: piece in pieces;
      StartsEmpty(front, JoinPath(front));
    }
  }

  lemma {:induction false} StartsNamed(pieces: seq<string>, path: string)
    requires ArePieces(pieces, path) && pieces[0] != ""
    ensures path != "" && path[0] != '/'
  {
    if |pieces| == 1 {
      assert pieces[0][0] in pieces[0] && pieces[0] in pieces;
    } else {
      var front := pieces[..|pieces| - 1];
      assert forall piece <- front :: piece in pieces;
      StartsNamed(front, JoinPath(front));
    }
  }

  lemma ThreeDeepIs(path: string, first: string, last: string)
    requires IsPlainName(first) && IsPlainName(last)
    ensures IsThreeDeep(path, first, last)
       <==> var components := Components(path);
            && |components| == 3
            && components[0] == Normal(first) && components[1].Normal? && components[2] == Normal(last)
  {
    hide PieceComponents, SplitOn, JoinPath;
    PiecesAre(path);
    var pieces := SplitOn(path, '/');
    forall i, j | 0 < i < j < |pieces| && pieces[0] == first && IsPlainName(pieces[i]) && pieces[j] == last
                  && forall k :: 0 < k < |pieces| && k != i && k != j ==> IsFiller(pieces[k])
      ensures Components(path) == [Normal(first), Normal(pieces[i]), Normal(last)]
    {
      ThreeNames(pieces, i, j);
      StartsNamed(pieces, path);
    }
    var components := Components(path);
    if |components| == 3 && components[0] == Normal(first) && components[1].Normal? && components[2] == Normal(last) {
      var i, j := ThreePieces(pieces, path, Normal(first), components[1], Normal(last));
      assert pieces[i] in pieces && pieces[0] == first && pieces[j] == last;
    }
  }

  lemma ThreeNames(pieces: seq<string>, i: nat, j: nat)
    requires 0 < i < j < |pieces| && IsPlainName(pieces[0]) && IsPlainName(pieces[i]) && IsPlainName(pieces[j])
    requires forall k :: 0 < k < |pieces| && k != i && k != j ==> IsFiller(pieces[k])
    ensures PieceComponents(pieces) == [Normal(pieces[0]), Normal(pieces[i]), Normal(pieces[j])]
  {
    hide PieceComponents;
    NameEnds(pieces, j);
    NameEnds(pieces[..j], i);
    NameEnds(pieces[..i], 0);
    assert pieces[..j][..i] == pieces[..i] && pieces[..i][..0] == [];
    NothingHasNone();
  }

  lemma NothingHasNone()
    ensures PieceComponents([]) == []
  {
  }

  lemma AllButLast<T>(a: seq<T>, x: T, b: seq<T>, y: T)
    requires a + [x] == b + [y]
    ensures a == b && x == y
  {
    assert (a + [x])[..|a|] == a && (b + [y])[..|b|] == b && (a + [x])[|a|] == x;
  }

  lemma ThreePieces(pieces: seq<string>, path: string, a: Component, b: Component, c: Component)
    returns (i: nat, j: nat)
    requires ArePieces(pieces, path) && (path == "" || path[0] != '/')
    requires PieceComponents(pieces) == [a, b, c] && a.Normal? && b.Normal? && c.Normal?
    ensures 0 < i < j < |pieces| && Normal(pieces[0]) == a && Normal(pieces[i]) == b && Normal(pieces[j]) == c
    ensures forall k :: 0 < k < |pieces| && k != i && k != j ==> IsFiller(pieces[k])
    ensures !IsFiller(pieces[i]) && pieces[i] != ".."
  {
    hide PieceComponents, JoinPath;
    j := PeelLast(pieces);
    AllButLast(PieceComponents(pieces[..j]), Normal(pieces[j]), [a, b], c);
    i := PeelLast(pieces[..j]);
    assert pieces[..j][..i] == pieces[..i];
    AllButLast(PieceComponents(pieces[..i]), Normal(pieces[i]), [a], b);
    var h := PeelLast(pieces[..i]);
    assert pieces[..i][..h] == pieces[..h];
    AllButLast(PieceComponents(pieces[..h]), Normal(pieces[h]), [], a);
    if h > 0 {
      NoComponents(pieces[..h]);
      StartsEmpty(pieces, path);
    }
  }

  lemma {:induction false} NamesAreComponents(names: seq<string>)
    requires forall name <- names :: IsPlainName(name)
    ensures |PieceComponents(names)| == |names|
    ensures forall i :: 0 <= i < |names| ==> PieceComponents(names)[i] == Normal(names[i])
  {
    if names != [] {
      assert names[|names| - 1] in names;
      NamesAreComponents(names[..|names| - 1]);
    }
  }

  lemma PlainHasNoSeparator(name: string)
    requires IsPlainName(name)
    ensures '/' !in name
  {
  }

  /** Plain names joined by separators come apart again, each as one component. */
  lemma JoinedPathComponents(names: seq<string>)
    requires names != [] && forall name <- names :: IsPlainName(name)
    ensures var components := Components(JoinPath(names));
            |components| == |names| && forall i :: 0 <= i < |names| ==> components[i] == Normal(names[i])
  {
    hide IsPlainName, SplitOn, PieceComponents;
    forall name | name in names ensures '/' !in name { PlainHasNoSeparator(name); }
    JoinedPathSplits(names);
    NamesAreComponents(names);
    StartsPlain(names);
  }

  lemma {:induction false} StartsPlain(names: seq<string>)
    requires names != [] && forall name <- names :: IsPlainName(name)
    ensures JoinPath(names) != "" && JoinPath(names)[0] != '/'
  {
    assert names[0] in names;
    if |names| == 1 {
      assert names[0][0] in names[0];
    } else {
      StartsPlain(names[..|names| - 1]);
    }
  }
}
