/** Flattening a `PUT /users` body into specs ordered by email: src/node_api/api.rs. */
module UserSpecs {
  import opened Bytes
  import opened Texts
  import opened Users

  datatype PutEntry = PutEntry(password: Text, quotaBytes: U64, expiresUnix: int)

  function SpecOf(email: Text, entry: PutEntry): UserSpec
  {
    UserSpec(email, entry.password, entry.quotaBytes, entry.expiresUnix)
  }

  /** The order of strings: byte by byte. */
  predicate Before(a: Text, b: Text)
  {
    b != [] && (a == [] || a[0] < b[0] || (a[0] == b[0] && Before(a[1..], b[1..])))
  }

  lemma {:induction false} BeforeOrders(a: Text, b: Text)
    ensures Before(a, b) ==> a != b && !Before(b, a)
    ensures a == b || Before(a, b) || Before(b, a)
  {
    if a != [] && b != [] && a[0] == b[0] {
      BeforeOrders(a[1..], b[1..]);
      assert a == [a[0]] + a[1..] && b == [b[0]] + b[1..];
    }
  }

  lemma {:induction false} BeforeTrans(a: Text, b: Text, c: Text)
    requires Before(a, b) && Before(b, c)
    ensures Before(a, c)
  {
    if a != [] && a[0] == b[0] && b[0] == c[0] {
      BeforeTrans(a[1..], b[1..], c[1..]);
    }
  }

  ghost predicate Sorted(specs: seq<UserSpec>)
  {
    forall i, j :: 0 <= i < j < |specs| ==> Before(specs[i].email, specs[j].email)
  }

  /** Where a spec belongs in a sorted list. */
  method Position(specs: seq<UserSpec>, email: Text) returns (k: nat)
    requires Sorted(specs)
    ensures k <= |specs|
    ensures forall i :: 0 <= i < k ==> Before(specs[i].email, email)
    ensures forall i :: k <= i < |specs| ==> !Before(specs[i].email, email)
  {
    k := 0;
    while k < |specs| && Before(specs[k].email, email)
      invariant k <= |specs|
      invariant forall i :: 0 <= i < k ==> Before(specs[i].email, email)
    {
      k := k + 1;
    }
    forall i | k <= i < |specs|
      ensures !Before(specs[i].email, email)
    {
      if i > k && Before(specs[i].email, email) {
        BeforeTrans(specs[k].email, specs[i].email, email);
      }
    }
  }

  /** The entries of a body in one order the hash map may hand them out. */
  ghost predicate Lists(order: seq<(Text, PutEntry)>, body: map<Text, PutEntry>)
  {
    && (forall i :: 0 <= i < |order| ==> order[i].0 in body && body[order[i].0] == order[i].1)
    && (forall email :: email in body ==> (email, body[email]) in order)
    && (forall i, j :: 0 <= i < j < |order| ==> order[i].0 != order[j].0)
  }

  /** `specs` holds exactly the entries of `order`. */
  ghost predicate Holds(specs: seq<UserSpec>, order: seq<(Text, PutEntry)>)
  {
    && (forall i :: 0 <= i < |specs| ==> exists k :: 0 <= k < |order| && specs[i] == SpecOf(order[k].0, order[k].1))
    && (forall k :: 0 <= k < |order| ==> SpecOf(order[k].0, order[k].1) in specs)
  }

  lemma InsertSorted(specs: seq<UserSpec>, k: nat, spec: UserSpec)
    requires Sorted(specs) && k <= |specs|
    requires forall i :: 0 <= i < k ==> Before(specs[i].email, spec.email)
    requires forall i :: k <= i < |specs| ==> !Before(specs[i].email, spec.email) && specs[i].email != spec.email
    ensures Sorted(specs[..k] + [spec] + specs[k..])
  {
    forall i | k <= i < |specs|
      ensures Before(spec.email, specs[i].email)
    {
      BeforeOrders(spec.email, specs[i].email);
    }
  }

  lemma InsertHolds(specs: seq<UserSpec>, k: nat, order: seq<(Text, PutEntry)>, n: nat)
    requires k <= |specs| && n < |order| && Holds(specs, order[..n])
    ensures Holds(specs[..k] + [SpecOf(order[n].0, order[n].1)] + specs[k..], order[..n + 1])
  {
    var spec := SpecOf(order[n].0, order[n].1);
    var out := specs[..k] + [spec] + specs[k..];
    var a, b := order[..n], order[..n + 1];
    assert b[n] == order[n] && out[k] == spec;
    forall i | 0 <= i < |out|
      ensures exists m :: 0 <= m < |b| && out[i] == SpecOf(b[m].0, b[m].1)
    {
      if i != k {
        var j := if i < k then i else i - 1;
        assert out[i] == specs[j];
        var m :| 0 <= m < |a| && specs[j] == SpecOf(a[m].0, a[m].1);
        assert b[m] == a[m];
      }
    }
    forall m | 0 <= m < |b|
      ensures SpecOf(b[m].0, b[m].1) in out
    {
      if m < n {
        assert b[m] == a[m];
        assert specs == specs[..k] + specs[k..];
      }
    }
  }

  /** `into_specs`: the entries of the body, sorted by email, whatever order they came in. */
  method IntoSpecs(order: seq<(Text, PutEntry)>) returns (specs: seq<UserSpec>)
    requires forall i, j :: 0 <= i < j < |order| ==> order[i].0 != order[j].0
    ensures Sorted(specs) && Holds(specs, order)
  {
    specs := [];
    for n := 0 to |order|
      invariant Sorted(specs) && Holds(specs, order[..n])
    {
      var spec := SpecOf(order[n].0, order[n].1);
      var k := Position(specs, spec.email);
      NewEmail(specs, order, n);
      InsertSorted(specs, k, spec);
      InsertHolds(specs, k, order, n);
      specs := specs[..k] + [spec] + specs[k..];
    }
    assert order[..|order|] == order;
  }

  lemma NewEmail(specs: seq<UserSpec>, order: seq<(Text, PutEntry)>, n: nat)
    requires n < |order| && Holds(specs, order[..n])
    requires forall i, j :: 0 <= i < j < |order| ==> order[i].0 != order[j].0
    ensures forall i :: 0 <= i < |specs| ==> specs[i].email != order[n].0
  {
    forall i | 0 <= i < |specs|
      ensures specs[i].email != order[n].0
    {
      var m :| 0 <= m < |order[..n]| && specs[i] == SpecOf(order[..n][m].0, order[..n][m].1);
      assert order[..n][m] == order[m];
    }
  }

  // ---- Who wins after a PUT ----

  /** A usable entry with the same password hash. */
  ghost predicate Rivals(hashOf: Text -> Hash, body: map<Text, PutEntry>, other: Text, email: Text)
    requires other in body && email in body
  {
    Usable(SpecOf(other, body[other])) && hashOf(body[other].password) == hashOf(body[email].password)
  }

  /** The user has the least email among the usable entries with its password hash. */
  ghost predicate Least(hashOf: Text -> Hash, body: map<Text, PutEntry>, email: Text)
  {
    && email in body && Usable(SpecOf(email, body[email]))
    && forall other :: other in body && Rivals(hashOf, body, other, email) ==> !Before(other, email)
  }

  lemma SortedDistinct(specs: seq<UserSpec>)
    requires Sorted(specs)
    ensures DistinctEmails(specs)
  {
    forall i, j | 0 <= i < j < |specs|
      ensures specs[i].email != specs[j].email
    {
      BeforeOrders(specs[i].email, specs[j].email);
    }
  }

  lemma WinnerIsLeast(hashOf: Text -> Hash, body: map<Text, PutEntry>, order: seq<(Text, PutEntry)>, specs: seq<UserSpec>, i: nat)
    requires Lists(order, body) && Sorted(specs) && Holds(specs, order) && i < |specs|
    ensures specs[i].email in body && specs[i] == SpecOf(specs[i].email, body[specs[i].email])
    ensures Wins(hashOf, specs, i) <==> Least(hashOf, body, specs[i].email)
  {
    var email := specs[i].email;
    FromBody(body, order, specs);
    if Wins(hashOf, specs, i) {
      forall other | other in body && Rivals(hashOf, body, other, email)
        ensures !Before(other, email)
      {
        var j :| 0 <= j < |specs| && specs[j] == SpecOf(other, body[other]);
        BeforeOrders(other, email);
      }
    }
    if Least(hashOf, body, email) {
      forall j | 0 <= j < i && Usable(specs[j])
        ensures hashOf(specs[j].password) != hashOf(specs[i].password)
      {
        assert Before(specs[j].email, email);
        assert !Rivals(hashOf, body, specs[j].email, email);
      }
    }
  }

  lemma FromBody(body: map<Text, PutEntry>, order: seq<(Text, PutEntry)>, specs: seq<UserSpec>)
    requires Lists(order, body) && Holds(specs, order)
    ensures forall i :: 0 <= i < |specs| ==> specs[i].email in body && specs[i] == SpecOf(specs[i].email, body[specs[i].email])
    ensures forall email :: email in body ==> SpecOf(email, body[email]) in specs
  {
    forall email | email in body
      ensures SpecOf(email, body[email]) in specs
    {
      var k :| 0 <= k < |order| && order[k] == (email, body[email]);
      assert SpecOf(order[k].0, order[k].1) in specs;
    }
  }

  /** After a PUT, whatever order the map is iterated in, exactly the users with the least email of
      their password hash are admitted, with the limits of their own entry. */
  lemma PutAdmitsLeast(hashOf: Text -> Hash, body: map<Text, PutEntry>, order: seq<(Text, PutEntry)>, specs: seq<UserSpec>, email: Text)
    requires Lists(order, body) && Sorted(specs) && Holds(specs, order)
    ensures ClearWinners(hashOf, specs)
    ensures email in Admitted(hashOf, specs) <==> Least(hashOf, body, email)
    ensures email in Admitted(hashOf, specs) ==> email in body && Admitted(hashOf, specs)[email] == SpecOf(email, body[email])
  {
    hide Admitted, Least, Sorted, Holds, Lists, DistinctEmails;
    SortedDistinct(specs);
    DistinctIsClear(hashOf, specs);
    AdmittedAreWinners(hashOf, specs);
    FromBody(body, order, specs);
    if email in Admitted(hashOf, specs) {
      var i: nat :| Wins(hashOf, specs, i) && specs[i] == Admitted(hashOf, specs)[email] && specs[i].email == email;
      WinnerIsLeast(hashOf, body, order, specs, i);
    }
    if Least(hashOf, body, email) {
      LeastListed(hashOf, body, email);
      var i: nat :| i < |specs| && specs[i] == SpecOf(email, body[email]);
      WinnerIsLeast(hashOf, body, order, specs, i);
    }
  }

  lemma LeastListed(hashOf: Text -> Hash, body: map<Text, PutEntry>, email: Text)
    requires Least(hashOf, body, email)
    ensures email in body
  {
  }
}
