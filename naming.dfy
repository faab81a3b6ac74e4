/**
 * Dataset names in scale_pyramid.py: the scale suffix of a leaf name
 * (extract_scale), the leaf and parent of a slash-separated path, the names
 * given to new levels, and where the base level of a pyramid lives.
 */
module Naming {
  import opened Wrappers
  import opened Errors
  import opened Text

  /** extract_scale(leaf), scale_pyramid.py:18-24: an integer after a leading 's',
      None when the first character is not 's' or int() refuses the rest. On the
      empty name s[0] raises IndexError, which is an error here. */
  function ExtractScale(leaf: string): (r: Result<Option<int>, Error>)
    ensures r.Err? <==> leaf == []
    ensures r.Err? ==> r.error == EmptyLeafName
    ensures r.Ok? && r.value.Some? <==> (|leaf| >= 1 && leaf[0] == 's' && PyInt(leaf[1..]).Some?)
    ensures r.Ok? && r.value.Some? ==> r.value.value == PyInt(leaf[1..]).value
  {
    if leaf == [] then Err(EmptyLeafName)
    else if leaf[0] != 's' then Ok(None)
    else Ok(PyInt(leaf[1..]))
  }

  /** The leaf name of an s<n> level reads back as n, for every n that str() can
      write; past the digit limit int() refuses the suffix. */
  lemma ExtractScaleOfLevel(n: int)
    ensures ExtractScale("s" + IntToString(n)) == Ok(if WithinDigitLimit(n) then Some(n) else None)
  {
    var leaf := "s" + IntToString(n);
    assert leaf[1..] == IntToString(n);
    PyIntOfIntToString(n);
  }

  /** A bare "s" carries no scale: int("") is refused. */
  lemma ExtractScaleOfBareS()
    ensures ExtractScale("s") == Ok(None)
  {
    assert "s"[1..] == [];
    StripUnchanged([], IntBlanks);
  }

  /** A suffix of more digits than int() accepts is no scale: "s" followed by
      4301 digits is treated like a name without a suffix. */
  lemma ExtractScaleRefusesLongSuffix(digits: string)
    requires AllDigits(digits) && |digits| > MaxStrDigits
    ensures ExtractScale("s" + digits) == Ok(None)
  {
    assert ("s" + digits)[1..] == digits;
    PyIntRefusesLongNumerals(digits);
  }

  /** int() does not skip U+001C, so "s\x1c5" is not a level name. */
  lemma ExtractScaleRefusesSeparator()
    ensures ExtractScale("s\U{1C}5") == Ok(None)
  {
    assert "s\U{1C}5"[1..] == "\U{1C}5";
    SeparatorIsNotIntSpace();
  }

  /** path.split("/")[-1] */
  function LeafName(path: string): (r: string)
    ensures '/' !in r
  {
    var parts := Split(path, '/');
    parts[|parts| - 1]
  }

  /** "/".join(path.split("/")[:-1]) */
  function ParentPath(path: string): string {
    var parts := Split(path, '/');
    Join(parts[..|parts| - 1], '/')
  }

  /** A path is its parent, a slash and its leaf; without a slash it is its own leaf
      and its parent is empty. */
  lemma ParentAndLeaf(path: string)
    ensures '/' in path ==> ParentPath(path) + "/" + LeafName(path) == path
    ensures '/' !in path ==> LeafName(path) == path && ParentPath(path) == []
  {
    var parts := Split(path, '/');
    JoinSplit(path, '/');
    if '/' !in path {
      SplitNoSeparator(path, '/');
    } else {
      assert |parts| >= 2 by {
        if |parts| == 1 {
          assert false;
        }
      }
      JoinLast(parts, '/');
    }
  }

  /** Joining splits off the last piece behind one separator. */
  lemma {:induction false} JoinLast(parts: seq<string>, sep: char)
    requires |parts| >= 2
    ensures Join(parts, sep) == Join(parts[..|parts| - 1], sep) + [sep] + parts[|parts| - 1]
    decreases |parts|
  {
    if |parts| > 2 {
      var tail := parts[1..];
      JoinLast(tail, sep);
      assert tail[..|tail| - 1] == parts[1..|parts| - 1];
      assert parts[..|parts| - 1][1..] == parts[1..|parts| - 1];
    } else {
      assert parts[..1] == [parts[0]];
    }
  }

  /** in_ds_name + "/s" + str(scale_num), scale_pyramid.py:163. */
  function LevelName(parent: string, n: int): string {
    parent + "/s" + IntToString(n)
  }

  lemma NoSlashInLevelLeaf(n: int)
    ensures '/' !in "s" + IntToString(n)
  {
    var leaf := "s" + IntToString(n);
    assert forall i :: 0 <= i < |leaf| ==> leaf[i] != '/';
  }

  /** Different scale numbers give different names under the same parent. */
  lemma LevelNameInjective(parent: string, a: int, b: int)
    ensures LevelName(parent, a) == LevelName(parent, b) <==> a == b
  {
    if LevelName(parent, a) == LevelName(parent, b) {
      var k := |parent| + 2;
      assert LevelName(parent, a)[k..] == IntToString(a);
      assert LevelName(parent, b)[k..] == IntToString(b);
      IntToStringInjective(a, b);
    }
  }

  /** Where the base level of the pyramid is and how the new levels are numbered. */
  datatype Base = Base(dsName: string, parent: string, lowest: int, promoted: bool)

  /** scale_pyramid.py:95-110. A leaf with a scale suffix s<n> is the base itself, its
      levels sit next to it and are numbered from n; any other name is a plain
      array that is moved to <name>/s0 (promoted) and gets its levels beside it. */
  function Locate(inName: string): (r: Result<Base, Error>)
    ensures r.Err? <==> LeafName(inName) == []
    ensures r.Err? ==> r.error == EmptyLeafName
    ensures r.Ok? && r.value.promoted ==>
      ExtractScale(LeafName(inName)) == Ok(None) &&
      r.value == Base(inName + "/s0", inName, 0, true)
    ensures r.Ok? && !r.value.promoted ==>
      ExtractScale(LeafName(inName)) == Ok(Some(r.value.lowest)) &&
      r.value.dsName == inName && r.value.parent == ParentPath(inName)
  {
    var lowest :- ExtractScale(LeafName(inName));
    match lowest
    case None => Ok(Base(inName + "/s0", inName, 0, true))
    case Some(n) => Ok(Base(inName, ParentPath(inName), n, false))
  }

  /** Locating a level this program names gives back its parent and its number:
      a level s<n> used as input grows the pyramid from n + 1 in the same group.
      A name whose number is past the digit limit has no readable suffix and is
      moved like any unsuffixed name. */
  lemma LocateLevelName(parent: string, n: int)
    ensures WithinDigitLimit(n) ==>
      Locate(LevelName(parent, n)) == Ok(Base(LevelName(parent, n), parent, n, false))
    ensures !WithinDigitLimit(n) ==>
      Locate(LevelName(parent, n)) == Ok(Base(LevelName(parent, n) + "/s0", LevelName(parent, n), 0, true))
  {
    var leaf := "s" + IntToString(n);
    var name := LevelName(parent, n);
    NoSlashInLevelLeaf(n);
    SplitNoSeparator(leaf, '/');
    assert name == parent + ['/'] + leaf;
    SplitAround(parent, leaf, '/');
    var parts := Split(name, '/');
    assert parts == Split(parent, '/') + [leaf];
    assert parts[..|parts| - 1] == Split(parent, '/');
    JoinSplit(parent, '/');
    assert LeafName(name) == leaf;
    assert ParentPath(name) == parent;
    ExtractScaleOfLevel(n);
  }

  /** With a scale suffix, no new level is named like the input: levels are
      numbered above the input's own number. */
  lemma SuffixedBaseKeepsItsName(inName: string, k: int)
    requires Locate(inName).Ok? && !Locate(inName).value.promoted
    requires k > Locate(inName).value.lowest
    ensures LevelName(Locate(inName).value.parent, k) != inName
  {
    var b := Locate(inName).value;
    if LevelName(b.parent, k) == inName {
      LocateLevelName(b.parent, k);
      assert false;
    }
  }
}
