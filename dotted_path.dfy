/** The translation table the two client `LanguageContext`s read
    (`MOCK_TRANSLATIONS` of Client/src/data/mockData.js) and the dotted-path
    walk both of them perform on it. */
module DottedPath {
  import opened Base

  /** A JavaScript value in the table: a string, or a plain object keyed by
      strings. */
  datatype Node = Str(s: string) | Obj(entries: map<string, Node>)

  /** JavaScript truthiness: the empty string is falsy, every object truthy. */
  predicate JsTruthy(n: Node)
  {
    n.Obj? || n.s != ""
  }

  /** `current[key]` of an own property: defined only on an object having that
      key. */
  function Child(n: Node, key: string): (r: Option<Node>)
    ensures r.Some? <==> n.Obj? && key in n.entries
    ensures r.Some? ==> r.value == n.entries[key]
  {
    if n.Obj? && key in n.entries then Some(n.entries[key]) else None
  }

  /** Following `keys` one property at a time from `n`; `None` as soon as a
      key is missing. */
  function Walk(n: Node, keys: seq<string>): Option<Node>
    decreases |keys|
  {
    if keys == [] then Some(n)
    else match Child(n, keys[0])
      case None => None
      case Some(c) => Walk(c, keys[1..])
  }

  /** The optional-chaining walk `x?.[k1]?.[k2]…`, which stays undefined once
      it is. */
  function WalkFrom(o: Option<Node>, keys: seq<string>): Option<Node>
  {
    if o.None? then None else Walk(o.value, keys)
  }

  /** Walking a path in two legs is walking it at once. */
  lemma {:induction false} WalkAppend(n: Node, a: seq<string>, b: seq<string>)
    ensures Walk(n, a + b) == WalkFrom(Walk(n, a), b)
    decreases |a|
  {
    if a == [] {
      assert a + b == b;
    } else {
      assert (a + b)[0] == a[0] && (a + b)[1..] == a[1..] + b;
      match Child(n, a[0])
      case None =>
      case Some(c) => WalkAppend(c, a[1..], b);
    }
  }

  /** Every walk along a non-empty path from an empty object fails. */
  lemma EmptyObjectHasNoPaths(keys: seq<string>)
    requires keys != []
    ensures Walk(Obj(map[]), keys) == None
  {
  }

  /** `path.split('.')`: the pieces between the dots, empty pieces included. */
  function Split(s: string): (parts: seq<string>)
    ensures |parts| >= 1
    ensures forall i :: 0 <= i < |parts| ==> '.' !in parts[i]
    decreases |s|
  {
    if s == [] then [""]
    else
      var rest := Split(s[1..]);
      if s[0] == '.' then [""] + rest
      else [[s[0]] + rest[0]] + rest[1..]
  }

  /** `parts.join('.')`, the inverse of `Split`. */
  function Join(parts: seq<string>): string
    requires |parts| >= 1
    decreases |parts|
  {
    if |parts| == 1 then parts[0] else parts[0] + "." + Join(parts[1..])
  }

  /** Splitting loses nothing: joining the pieces gives the path back. */
  lemma {:induction false} JoinSplit(s: string)
    ensures Join(Split(s)) == s
    decreases |s|
  {
    if s != [] {
      var rest := Split(s[1..]);
      JoinSplit(s[1..]);
      if s[0] == '.' {
        assert Split(s) == [""] + rest;
        assert Join(Split(s)) == "" + "." + Join(rest);
      } else {
        var parts := [[s[0]] + rest[0]] + rest[1..];
        assert Split(s) == parts;
        if |rest| == 1 {
          assert Join(parts) == [s[0]] + rest[0];
        } else {
          assert parts[1..] == rest[1..];
          assert Join(parts) == [s[0]] + rest[0] + "." + Join(rest[1..]);
          assert Join(rest) == rest[0] + "." + Join(rest[1..]);
        }
        assert s == [s[0]] + s[1..];
      }
    }
  }

  /** Pieces without dots come back out of their joined path unchanged, so
      two different key paths never share a dotted name. */
  lemma {:induction false} SplitJoin(parts: seq<string>)
    requires |parts| >= 1
    requires forall i :: 0 <= i < |parts| ==> '.' !in parts[i]
    ensures Split(Join(parts)) == parts
    decreases |parts|, |parts[0]|
  {
    if |parts| == 1 {
      SplitPiece(parts[0]);
    } else {
      SplitJoin(parts[1..]);
      SplitDotted(parts[0], Join(parts[1..]));
      assert [parts[0]] + parts[1..] == parts;
    }
  }

  /** A piece without a dot is split into itself. */
  lemma {:induction false} SplitPiece(p: string)
    requires '.' !in p
    ensures Split(p) == [p]
    decreases |p|
  {
    if p != [] {
      assert p[0] in p;
      assert forall c :: c in p[1..] ==> c in p;
      SplitPiece(p[1..]);
      assert p == [p[0]] + p[1..];
    }
  }

  /** Splitting `p + "." + rest` puts `p` in front of the pieces of `rest`. */
  lemma {:induction false} SplitDotted(p: string, rest: string)
    requires '.' !in p
    ensures Split(p + "." + rest) == [p] + Split(rest)
    decreases |p|
  {
    if p == [] {
      assert p + "." + rest == ['.'] + rest;
      assert (['.'] + rest)[1..] == rest;
    } else {
      assert p[0] in p;
      assert forall c :: c in p[1..] ==> c in p;
      var s := p + "." + rest;
      assert s[0] == p[0] && s[1..] == p[1..] + "." + rest;
      SplitDotted(p[1..], rest);
      assert p == [p[0]] + p[1..];
    }
  }
}
