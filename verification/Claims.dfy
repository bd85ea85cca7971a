/** Read and write claims on named resources, and merging them so that a write wins. */
module Claims {
  import opened Order
  import opened Strings

  datatype Mode = Read | Write

  datatype Claim = Claim(resource: string, mode: Mode)

  /** Two claims collide when they name one resource and at least one of them writes it. */
  predicate Collide(a: Claim, b: Claim) {
    a.resource == b.resource && (a.mode == Write || b.mode == Write)
  }

  predicate ClaimsCollide(left: seq<Claim>, right: seq<Claim>) {
    exists a, b | a in left && b in right :: Collide(a, b)
  }

  /** At most one claim for each resource. */
  predicate OnePerResource(claims: seq<Claim>) {
    forall i, j | 0 <= i < j < |claims| :: claims[i].resource != claims[j].resource
  }

  predicate Writes(claims: seq<Claim>, resource: string) {
    Claim(resource, Write) in claims
  }

  function Resources(claims: seq<Claim>): set<string> {
    set c | c in claims :: c.resource
  }

  function WriteResources(claims: seq<Claim>): set<string> {
    set c | c in claims && c.mode == Write :: c.resource
  }

  /** The mode a resource ends up with: write as soon as one claim writes it. */
  function MergedMode(claims: seq<Claim>, resource: string): Mode {
    if Writes(claims, resource) then Write else Read
  }

  /** What merging must produce: the same resources in name order, each with its merged mode. */
  function Merge(claims: seq<Claim>): (r: seq<Claim>) {
    var names := SortStrings(Resources(claims));
    seq(|names|, i requires 0 <= i < |names| => Claim(names[i], MergedMode(claims, names[i])))
  }

  method NormalizeClaims(claims: seq<Claim>) returns (r: seq<Claim>)
    ensures r == Merge(claims)
  {
    var byResource: map<string, Mode> := map[];
    for i := 0 to |claims|
      invariant byResource.Keys == Resources(claims[..i])
      invariant forall n :: n in byResource ==> byResource[n] == MergedMode(claims[..i], n)
    {
      var c := claims[i];
      ghost var before := claims[..i];
      assert claims[..i + 1] == claims[..i] + [c];
      assert Resources(claims[..i + 1]) == Resources(claims[..i]) + {c.resource};
      if c.resource !in byResource {
        assert Writes(before, c.resource) ==> c.resource in Resources(before);
        byResource := byResource[c.resource := c.mode];
      } else if c.mode == Write {
        byResource := byResource[c.resource := c.mode];
      }
    }
    assert claims[..|claims|] == claims;
    var names := SortStrings(byResource.Keys);
    assert forall i :: 0 <= i < |names| ==> names[i] in Elements(names);
    r := seq(|names|, i requires 0 <= i < |names| => Claim(names[i], byResource[names[i]]));
  }

  /** A merged list holds one claim for each resource of the original, with the merged mode. */
  lemma MergeContents(claims: seq<Claim>)
    ensures OnePerResource(Merge(claims))
    ensures forall c :: c in Merge(claims) <==>
                          c.resource in Resources(claims) && c.mode == MergedMode(claims, c.resource)
    ensures Resources(Merge(claims)) == Resources(claims)
  {
    var names := SortStrings(Resources(claims));
    var m := Merge(claims);
    forall c: Claim | c.resource in Resources(claims) && c.mode == MergedMode(claims, c.resource)
      ensures c in m
    {
      assert c.resource in Elements(names);
      var i :| 0 <= i < |names| && names[i] == c.resource;
      assert m[i] == c;
    }
    forall c | c in m
      ensures c.resource in Resources(claims) && c.mode == MergedMode(claims, c.resource)
    {
      var i :| 0 <= i < |m| && m[i] == c;
      assert names[i] in Elements(names);
    }
    forall n | n in Resources(claims) ensures n in Resources(m) {
      assert Claim(n, MergedMode(claims, n)) in m;
    }
  }

  /** Merging loses no conflict and invents none. */
  lemma MergeKeepsCollisions(claims: seq<Claim>, other: seq<Claim>)
    ensures ClaimsCollide(Merge(claims), other) <==> ClaimsCollide(claims, other)
  {
    hide Merge;
    MergeContents(claims);
    var m := Merge(claims);
    if ClaimsCollide(m, other) {
      var a, b :| a in m && b in other && Collide(a, b);
      var c :| c in claims && c.resource == a.resource;
      if a.mode == Write {
        assert Claim(a.resource, Write) in claims && Collide(Claim(a.resource, Write), b);
      } else {
        assert Collide(c, b);
      }
    }
    if ClaimsCollide(claims, other) {
      var a, b :| a in claims && b in other && Collide(a, b);
      var c := Claim(a.resource, MergedMode(claims, a.resource));
      assert a == Claim(a.resource, a.mode);
      assert c in m && Collide(c, b);
    }
  }

  lemma MergeWrites(claims: seq<Claim>)
    ensures WriteResources(Merge(claims)) == WriteResources(claims)
    ensures forall n :: Writes(Merge(claims), n) <==> Writes(claims, n)
  {
    MergeContents(claims);
    forall n ensures Writes(Merge(claims), n) <==> Writes(claims, n) {
      if Writes(claims, n) {
        assert Claim(n, Write) in claims && n in Resources(claims);
      }
    }
    forall n ensures n in WriteResources(Merge(claims)) <==> n in WriteResources(claims) {
      WritesMembership(claims, n);
      WritesMembership(Merge(claims), n);
    }
  }

  lemma WritesMembership(claims: seq<Claim>, n: string)
    ensures n in WriteResources(claims) <==> Writes(claims, n)
  {
    if n in WriteResources(claims) {
      var c :| c in claims && c.mode == Write && c.resource == n;
      assert c == Claim(n, Write);
    }
    if Writes(claims, n) {
      assert Claim(n, Write) in claims;
    }
  }

  lemma MergeIdempotent(claims: seq<Claim>)
    ensures Merge(Merge(claims)) == Merge(claims)
  {
    var m := Merge(claims);
    MergeContents(claims);
    MergeWrites(claims);
    var names := SortStrings(Resources(claims));
    var again := Merge(m);
    assert |again| == |names|;
    forall i | 0 <= i < |names| ensures again[i] == m[i] {
      assert m[i] == Claim(names[i], MergedMode(claims, names[i]));
    }
  }
}
