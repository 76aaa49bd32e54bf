/**
 The owner annotation of ManifestWorks and managed clusters: written as namespace, separator and name,
 and parsed back when one of these objects changes, to find the deployment to reconcile.
 */
module OwnerAnnotation {
  const SEPARATOR := '/'

  datatype Request = Request(namespace: string, name: string)

  function Format(namespace: string, name: string): string {
    namespace + [SEPARATOR] + name
  }

  /** The pieces of a string between separators, as strings.Split cuts it; there is always at least one. */
  function Split(s: string): (r: seq<string>)
    ensures |r| >= 1
  {
    if s == [] then [""]
    else
      var rest := Split(s[1..]);
      if s[0] == SEPARATOR then [""] + rest else [[s[0]] + rest[0]] + rest[1..]
  }

  function Join(pieces: seq<string>): string
    requires |pieces| >= 1
  {
    if |pieces| == 1 then pieces[0] else pieces[0] + [SEPARATOR] + Join(pieces[1..])
  }

  /** The requests a change of an object with this annotation leads to; a missing annotation is empty. */
  function Requests(annotation: string): seq<Request> {
    if |annotation| == 0 then []
    else
      var pieces := Split(annotation);
      if |pieces| != 2 then [] else [Request(pieces[0], pieces[1])]
  }

  lemma PrependToFirst(c: char, first: string, rest: string)
    ensures [c] + first + [SEPARATOR] + rest == [c] + (first + [SEPARATOR] + rest)
  {
  }

  lemma JoinPrepends(c: char, pieces: seq<string>)
    requires |pieces| >= 1
    ensures Join([[c] + pieces[0]] + pieces[1..]) == [c] + Join(pieces)
  {
    if |pieces| > 1 {
      assert ([[c] + pieces[0]] + pieces[1..])[1..] == pieces[1..];
      PrependToFirst(c, pieces[0], Join(pieces[1..]));
    }
  }

  lemma JoinSeparates(pieces: seq<string>)
    requires |pieces| >= 1
    ensures Join([""] + pieces) == [SEPARATOR] + Join(pieces)
  {
    assert ([""] + pieces)[1..] == pieces;
    assert "" + [SEPARATOR] == [SEPARATOR];
  }

  /** Splitting loses nothing. */
  lemma {:induction false} JoinAfterSplit(s: string)
    ensures Join(Split(s)) == s
  {
    if s != [] {
      JoinAfterSplit(s[1..]);
      assert s == [s[0]] + s[1..];
      if s[0] == SEPARATOR {
        JoinSeparates(Split(s[1..]));
      } else {
        JoinPrepends(s[0], Split(s[1..]));
      }
    }
  }

  lemma {:induction false} PiecesAreFree(s: string)
    ensures forall p | p in Split(s) :: SEPARATOR !in p
  {
    if s != [] {
      PiecesAreFree(s[1..]);
      var rest := Split(s[1..]);
      assert rest[0] in rest && forall p | p in rest[1..] :: p in rest;
    }
  }

  lemma {:induction false} SplitAtSeparator(a: string, b: string)
    requires SEPARATOR !in a
    ensures Split(a + [SEPARATOR] + b) == [a] + Split(b)
  {
    var s := a + [SEPARATOR] + b;
    if a == [] {
      assert s[1..] == b;
    } else {
      assert s[1..] == a[1..] + [SEPARATOR] + b;
      assert forall c | c in a[1..] :: c in a;
      SplitAtSeparator(a[1..], b);
      assert [s[0]] + a[1..] == a;
    }
  }

  lemma {:induction false} SplitFree(s: string)
    requires SEPARATOR !in s
    ensures Split(s) == [s]
  {
    if s != [] {
      assert s[0] in s && forall c | c in s[1..] :: c in s;
      SplitFree(s[1..]);
      assert [s[0]] + s[1..] == s;
    }
  }

  /** What is parsed was written from just these two parts, and neither contains the separator. */
  lemma ParsedWasFormatted(annotation: string)
    ensures forall r | r in Requests(annotation) ::
              Format(r.namespace, r.name) == annotation && SEPARATOR !in r.namespace && SEPARATOR !in r.name
    ensures |Requests(annotation)| <= 1
  {
    JoinAfterSplit(annotation);
    PiecesAreFree(annotation);
  }

  /** An annotation leads back to its deployment if and only if neither part contains the separator. */
  lemma LeadsBackToOwner(namespace: string, name: string)
    ensures Requests(Format(namespace, name)) == [Request(namespace, name)]
       <==> SEPARATOR !in namespace && SEPARATOR !in name
  {
    if SEPARATOR !in namespace && SEPARATOR !in name {
      SplitAtSeparator(namespace, name);
      SplitFree(name);
    } else if Requests(Format(namespace, name)) == [Request(namespace, name)] {
      PiecesAreFree(Format(namespace, name));
    }
  }
}
