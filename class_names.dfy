/**
 * `cn(...classes)`: keeps the truthy arguments, in order, and joins their
 * string forms with single spaces.
 */
module ClassNames {
  import opened JsText

  /** `string | number | boolean | undefined | null`; numbers are integers here. */
  datatype ClassValue = Str(s: string) | Num(n: int) | Bool(b: bool) | Undefined | Null

  /** `Boolean(v)`. */
  predicate Truthy(v: ClassValue)
  {
    match v
    case Str(s) => s != ""
    case Num(n) => n != 0
    case Bool(b) => b
    case Undefined => false
    case Null => false
  }

  /** `String(v)`, the form `join` writes. */
  function Render(v: ClassValue): (r: string)
    ensures Truthy(v) ==> r != ""
    ensures v.Str? ==> r == v.s
    ensures v == Bool(true) ==> r == "true"
  {
    match v
    case Str(s) => s
    case Num(n) => IntToString(n)
    case Bool(b) => if b then "true" else "false"
    case Undefined => "undefined"
    case Null => "null"
  }

  /** The string forms of the arguments that `filter(Boolean)` keeps, in argument order. */
  function Kept(classes: seq<ClassValue>): (r: seq<string>)
    ensures |r| <= |classes|
    ensures forall i :: 0 <= i < |r| ==> r[i] != ""
  {
    if classes == [] then []
    else if Truthy(classes[0]) then [Render(classes[0])] + Kept(classes[1..])
    else Kept(classes[1..])
  }

  /** `Array.prototype.join(sep)`. */
  function Join(parts: seq<string>, sep: string): string
  {
    if parts == [] then ""
    else if |parts| == 1 then parts[0]
    else parts[0] + sep + Join(parts[1..], sep)
  }

  function Cn(classes: seq<ClassValue>): string
  {
    Join(Kept(classes), " ")
  }

  function Sum(parts: seq<string>): nat
  {
    if parts == [] then 0 else |parts[0]| + Sum(parts[1..])
  }

  /** A part is kept exactly when some truthy argument renders to it. */
  lemma {:induction false} KeptMembers(classes: seq<ClassValue>, part: string)
    ensures part in Kept(classes) <==> exists i :: 0 <= i < |classes| && Truthy(classes[i]) && Render(classes[i]) == part
  {
    if classes != [] {
      KeptMembers(classes[1..], part);
      assert forall i :: 1 <= i < |classes| ==> classes[i] == classes[1..][i - 1];
      if exists i :: 0 < i < |classes| && Truthy(classes[i]) && Render(classes[i]) == part {
        var i :| 0 < i < |classes| && Truthy(classes[i]) && Render(classes[i]) == part;
        assert Truthy(classes[1..][i - 1]) && Render(classes[1..][i - 1]) == part;
      }
    }
  }

  /** Keeping distributes over concatenation of argument lists. */
  lemma {:induction false} KeptAppend(a: seq<ClassValue>, b: seq<ClassValue>)
    ensures Kept(a + b) == Kept(a) + Kept(b)
  {
    if a == [] {
      assert a + b == b;
    } else {
      assert (a + b)[0] == a[0];
      assert (a + b)[1..] == a[1..] + b;
      KeptAppend(a[1..], b);
    }
  }

  /** The result has one separator between each pair of kept parts: its length is their sum plus `k - 1`. */
  lemma {:induction false} JoinLength(parts: seq<string>, sep: string)
    requires parts != []
    ensures |Join(parts, sep)| == Sum(parts) + (|parts| - 1) * |sep|
  {
    if |parts| > 1 {
      JoinLength(parts[1..], sep);
    }
  }

  lemma CnLength(classes: seq<ClassValue>)
    requires Kept(classes) != []
    ensures |Cn(classes)| == Sum(Kept(classes)) + |Kept(classes)| - 1
  {
    JoinLength(Kept(classes), " ");
  }

  /** Joining two non-empty lists is joining each and putting one separator between them. */
  lemma {:induction false} JoinAppend(p: seq<string>, q: seq<string>, sep: string)
    requires p != [] && q != []
    ensures Join(p + q, sep) == Join(p, sep) + sep + Join(q, sep)
  {
    if |p| > 1 {
      assert (p + q)[1..] == p[1..] + q;
      JoinAppend(p[1..], q, sep);
    }
  }

  /** A falsy argument never contributes, wherever it stands. */
  lemma FalsyIgnored(before: seq<ClassValue>, v: ClassValue, after: seq<ClassValue>)
    requires !Truthy(v)
    ensures Cn(before + [v] + after) == Cn(before + after)
  {
    KeptAppend(before + [v], after);
    KeptAppend(before, [v]);
    KeptAppend(before, after);
    assert [v][1..] == [];
    assert Kept([v]) == [];
    assert Kept(before + [v]) == Kept(before);
    assert Kept(before + [v] + after) == Kept(before) + Kept(after);
  }

  /** The result is empty exactly when no argument is truthy. */
  lemma {:induction false} EmptyIffAllFalsy(classes: seq<ClassValue>)
    ensures Cn(classes) == "" <==> forall i :: 0 <= i < |classes| ==> !Truthy(classes[i])
  {
    KeptEmptyIff(classes);
    var k := Kept(classes);
    if k != [] {
      JoinLength(k, " ");
      assert |k[0]| > 0;
      SumPositive(k);
    }
  }

  lemma {:induction false} KeptEmptyIff(classes: seq<ClassValue>)
    ensures Kept(classes) == [] <==> forall i :: 0 <= i < |classes| ==> !Truthy(classes[i])
  {
    if classes != [] {
      KeptEmptyIff(classes[1..]);
      assert forall i :: 1 <= i < |classes| ==> classes[i] == classes[1..][i - 1];
    }
  }

  lemma SumPositive(parts: seq<string>)
    requires parts != [] && parts[0] != ""
    ensures Sum(parts) > 0
  {
  }

  /** `true` is kept and written as `"true"`. */
  lemma TrueRendersAsWord()
    ensures Cn([Bool(true)]) == "true"
    ensures Cn([]) == ""
    ensures Cn([Bool(false), Null, Undefined, Num(0), Str("")]) == ""
  {
  }

  /** Two string classes and a falsy condition between them. */
  lemma ConditionalClass(a: string, b: string)
    requires a != "" && b != ""
    ensures Cn([Str(a), Bool(false), Str(b)]) == a + " " + b
    ensures Cn([Str(a), Str("")]) == a
  {
    var c := [Str(a), Bool(false), Str(b)];
    assert c[1..][1..] == [Str(b)];
    assert Kept([Str(b)]) == [b] by { assert [Str(b)][1..] == []; }
    assert Kept(c) == [a, b];
    assert Join([a, b], " ") == a + " " + b by { assert [a, b][1..] == [b]; }
    var d := [Str(a), Str("")];
    assert d[1..][1..] == [];
    assert Kept(d) == [a];
  }

  /** `s.split(c)` for a single character `c`. */
  function SplitOn(s: string, c: char): (r: seq<string>)
    ensures |r| >= 1
    decreases |s|
  {
    match IndexOf(s, [c])
    case None => [s]
    case Some(i) => [s[..i]] + SplitOn(s[i + 1..], c)
  }

  predicate Spaceless(s: string)
  {
    forall i :: 0 <= i < |s| ==> s[i] != ' '
  }

  /** Splitting the result on spaces gives back the kept parts, when none of them holds a space. */
  lemma {:induction false} SplitJoin(parts: seq<string>)
    requires parts != []
    requires forall k :: 0 <= k < |parts| ==> Spaceless(parts[k])
    ensures SplitOn(Join(parts, " "), ' ') == parts
  {
    var p := parts[0];
    forall j: nat | j < |p|
      ensures !OccursAt(p, " ", j)
    {
      OccursAtChar(p, " ", j, 0);
    }
    if |parts| == 1 {
      MissingCharExcludes(p, " ", 0);
    } else {
      var s := Join(parts, " ");
      var rest := Join(parts[1..], " ");
      assert s == p + " " + rest;
      assert s[|p|..|p| + 1] == " ";
      forall j: nat | j < |p|
        ensures !OccursAt(s, " ", j)
      {
        OccursAtChar(s, " ", j, 0);
        assert s[j] == p[j];
      }
      FirstOccurrence(s, " ", |p|);
      assert s[..|p|] == p;
      assert s[|p| + 1..] == rest;
      SplitJoin(parts[1..]);
      assert parts == [p] + parts[1..];
    }
  }

  /** The pieces of every part split on `c`, concatenated in order. */
  function SplitEach(parts: seq<string>, c: char): (r: seq<string>)
    ensures |r| >= |parts|
  {
    if parts == [] then [] else SplitOn(parts[0], c) + SplitEach(parts[1..], c)
  }

  /** A one-character pattern occurs exactly where that character stands. */
  lemma CharOccurs(s: string, c: char, j: nat)
    ensures OccursAt(s, [c], j) <==> j < |s| && s[j] == c
  {
    if j < |s| {
      assert s[j..j + 1] == [s[j]];
    }
  }

  /** Splitting `a + c + b` on `c` splits `a` and `b` apart and concatenates the pieces. */
  lemma {:induction false} SplitAppend(a: string, b: string, c: char)
    ensures SplitOn(a + [c] + b, c) == SplitOn(a, c) + SplitOn(b, c)
    decreases |a|
  {
    var s := a + [c] + b;
    CharOccurs(s, c, |a|);
    match IndexOf(a, [c])
    case None =>
      forall j: nat | j < |a|
        ensures !OccursAt(s, [c], j)
      {
        CharOccurs(a, c, j);
        CharOccurs(s, c, j);
      }
      FirstOccurrence(s, [c], |a|);
      assert s[..|a|] == a;
      assert s[|a| + 1..] == b;
    case Some(i) =>
      CharOccurs(a, c, i);
      CharOccurs(s, c, i);
      forall j: nat | j < i
        ensures !OccursAt(s, [c], j)
      {
        CharOccurs(a, c, j);
        CharOccurs(s, c, j);
      }
      FirstOccurrence(s, [c], i);
      assert s[..i] == a[..i];
      assert s[i + 1..] == a[i + 1..] + [c] + b;
      SplitAppend(a[i + 1..], b, c);
  }

  /** Splitting a join on its one-character separator splits each part in turn. */
  lemma {:induction false} SplitJoinEach(parts: seq<string>, c: char)
    requires parts != []
    ensures SplitOn(Join(parts, [c]), c) == SplitEach(parts, c)
  {
    if |parts| == 1 {
      assert parts[1..] == [];
    } else {
      SplitJoinEach(parts[1..], c);
      SplitAppend(parts[0], Join(parts[1..], [c]), c);
    }
  }

  /**
   * `cn(...).split(' ')`: the pieces of the kept parts, each split on its own
   * spaces, in order; `[""]` when nothing is kept.
   */
  lemma CnTokens(classes: seq<ClassValue>)
    ensures Kept(classes) != [] ==> SplitOn(Cn(classes), ' ') == SplitEach(Kept(classes), ' ')
    ensures Kept(classes) == [] ==> SplitOn(Cn(classes), ' ') == [""]
  {
    if Kept(classes) != [] {
      assert " " == [' '];
      SplitJoinEach(Kept(classes), ' ');
    } else {
      assert IndexOf("", [' ']).None?;
    }
  }

  /** For space-free parts, the split gives back exactly the kept parts. */
  lemma SpacelessTokens(classes: seq<ClassValue>)
    requires Kept(classes) != []
    requires forall k :: 0 <= k < |Kept(classes)| ==> Spaceless(Kept(classes)[k])
    ensures SplitOn(Cn(classes), ' ') == Kept(classes)
  {
    SplitJoin(Kept(classes));
  }
}
