/** The multi-user registry: src/node_api/users.rs.

    `E` stands for the shared entry objects, so that the same relation describes the heap objects
    of the class below and the abstract runs of `UserRuns`. */
module Users {
  import opened Bytes
  import opened Options
  import opened Texts

  type Hash = seq<Byte>

  const HASH_SIZE := 32

  datatype UserSpec = UserSpec(email: Text, password: Text, quotaBytes: U64, expiresUnix: int)

  datatype DenyReason = Revoked | Expired | QuotaExceeded

  function SaturatingSum(a: U64, b: U64): U64 { if a + b < U64_MODULUS then a + b else U64_MODULUS - 1 }

  /** The state of one user. */
  datatype Entry = Entry(
    email: Text,
    generation: U64,
    up: U64,
    down: U64,
    connections: int,
    quotaBytes: U64,
    quotaBase: U64,
    expiresUnix: int,
    revoked: bool)
  {
    /** Saturating, as the source computes it. */
    function Total(): U64 { SaturatingSum(up, down) }

    function QuotaUsed(): U64 { if Total() >= quotaBase then Total() - quotaBase else 0 }

    function DenyReasonAt(now: int): Option<DenyReason>
    {
      if revoked then Some(Revoked)
      else if expiresUnix > 0 && now >= expiresUnix then Some(Expired)
      else if quotaBytes > 0 && QuotaUsed() >= quotaBytes then Some(QuotaExceeded)
      else None
    }
  }

  /** What a guard that saw `generation` reports. */
  function GuardDenial(entry: Entry, generation: U64, now: int): Option<DenyReason>
  {
    if entry.generation != generation then Some(Revoked) else entry.DenyReasonAt(now)
  }

  function NewEntry(spec: UserSpec): Entry
  {
    Entry(spec.email, 0, 0, 0, 0, spec.quotaBytes, 0, spec.expiresUnix, false)
  }

  function ApplyLimits(entry: Entry, spec: UserSpec): Entry
  {
    entry.(quotaBytes := spec.quotaBytes, expiresUnix := spec.expiresUnix)
  }

  function BumpGeneration(entry: Entry): Entry
  {
    entry.(generation := (entry.generation + 1) % U64_MODULUS)
  }

  /** The two indexes, and the state of every entry ever created. */
  datatype Registry<E> = Registry(byEmail: map<Text, E>, byHash: map<Hash, E>, entries: map<E, Entry>)

  /** The hash finds a user who is not denied now. */
  predicate LetsIn<E(==)>(r: Registry<E>, hash: Hash, now: int)
  {
    |hash| == HASH_SIZE && hash in r.byHash && r.byHash[hash] in r.entries && r.entries[r.byHash[hash]].DenyReasonAt(now).None?
  }

  // ---- Who a spec list admits ----

  predicate Usable(spec: UserSpec) { spec.email != [] && spec.password != [] }

  /** Some admitted user already has the password hash. */
  ghost predicate Taken(hashOf: Text -> Hash, admitted: map<Text, UserSpec>, hash: Hash)
  {
    exists email :: email in admitted && hashOf(admitted[email].password) == hash
  }

  /** The simple map a spec list stands for: the first usable spec of each new password hash. */
  ghost function Admitted(hashOf: Text -> Hash, specs: seq<UserSpec>): map<Text, UserSpec>
  {
    if specs == [] then map[]
    else
      var admitted := Admitted(hashOf, specs[..|specs| - 1]);
      var spec := specs[|specs| - 1];
      AdmitNext(spec, Taken(hashOf, admitted, hashOf(spec.password)), admitted)
  }

  function AdmitNext(spec: UserSpec, taken: bool, before: map<Text, UserSpec>): map<Text, UserSpec>
  {
    if Usable(spec) && !taken then before[spec.email := spec] else before
  }

  ghost predicate DistinctEmails(specs: seq<UserSpec>)
  {
    forall i, j :: 0 <= i < j < |specs| ==> specs[i].email != specs[j].email
  }

  /** Spec `i` is usable and no usable spec in front of it has its password hash. */
  ghost predicate Wins(hashOf: Text -> Hash, specs: seq<UserSpec>, i: nat)
  {
    && i < |specs| && Usable(specs[i])
    && forall j :: 0 <= j < i && Usable(specs[j]) ==> hashOf(specs[j].password) != hashOf(specs[i].password)
  }

  /** No two winners have the same email. */
  ghost predicate ClearWinners(hashOf: Text -> Hash, specs: seq<UserSpec>)
  {
    forall i: nat, j: nat :: i < j && Wins(hashOf, specs, i) && Wins(hashOf, specs, j) ==> specs[i].email != specs[j].email
  }

  lemma DistinctIsClear(hashOf: Text -> Hash, specs: seq<UserSpec>)
    requires DistinctEmails(specs)
    ensures ClearWinners(hashOf, specs)
  {
  }

  /** Every winner is admitted with its own spec. */
  ghost predicate WinnersIn(hashOf: Text -> Hash, specs: seq<UserSpec>, admitted: map<Text, UserSpec>)
  {
    forall i: nat :: Wins(hashOf, specs, i) ==> specs[i].email in admitted && admitted[specs[i].email] == specs[i]
  }

  /** Only winners are admitted. */
  ghost predicate OnlyWinners(hashOf: Text -> Hash, specs: seq<UserSpec>, admitted: map<Text, UserSpec>)
  {
    forall email :: email in admitted ==>
      exists i: nat :: Wins(hashOf, specs, i) && specs[i] == admitted[email] && specs[i].email == email
  }

  /** The hash of every usable spec is in use. */
  ghost predicate AllTaken(hashOf: Text -> Hash, specs: seq<UserSpec>, admitted: map<Text, UserSpec>)
  {
    forall i :: 0 <= i < |specs| && Usable(specs[i]) ==> Taken(hashOf, admitted, hashOf(specs[i].password))
  }

  /** The admitted users are the winners. */
  lemma {:induction false} AdmittedAreWinners(hashOf: Text -> Hash, specs: seq<UserSpec>)
    requires ClearWinners(hashOf, specs)
    ensures WinnersIn(hashOf, specs, Admitted(hashOf, specs))
    ensures OnlyWinners(hashOf, specs, Admitted(hashOf, specs))
    ensures AllTaken(hashOf, specs, Admitted(hashOf, specs))
  {
    hide WinnersIn, OnlyWinners, AllTaken, ClearWinners, Taken, Usable;
    if specs == [] {
      NoWinners(hashOf);
    } else {
      var front, spec := specs[..|specs| - 1], specs[|specs| - 1];
      assert specs == front + [spec];
      ClearFront(hashOf, front, spec);
      AdmittedAreWinners(hashOf, front);
      ClearNext(hashOf, front, spec, Admitted(hashOf, front));
      WinsStep(hashOf, front, spec, Admitted(hashOf, front));
      TakenStep(hashOf, front, spec, Admitted(hashOf, front));
    }
  }

  lemma NoWinners(hashOf: Text -> Hash)
    ensures WinnersIn(hashOf, [], map[]) && OnlyWinners(hashOf, [], map[]) && AllTaken(hashOf, [], map[])
  {
  }

  lemma ClearFront(hashOf: Text -> Hash, front: seq<UserSpec>, spec: UserSpec)
    requires ClearWinners(hashOf, front + [spec])
    ensures ClearWinners(hashOf, front)
  {
    var specs := front + [spec];
    forall i: nat, j: nat | i < j && Wins(hashOf, front, i) && Wins(hashOf, front, j)
      ensures front[i].email != front[j].email
    {
      WinsFront(hashOf, front, spec, i);
      WinsFront(hashOf, front, spec, j);
      assert specs[i] == front[i] && specs[j] == front[j];
    }
  }

  /** The winners stay clear exactly if the next one is not a second winner of an admitted user. */
  lemma ClearNext(hashOf: Text -> Hash, front: seq<UserSpec>, spec: UserSpec, before: map<Text, UserSpec>)
    requires ClearWinners(hashOf, front)
    requires WinnersIn(hashOf, front, before) && OnlyWinners(hashOf, front, before) && AllTaken(hashOf, front, before)
    ensures ClearWinners(hashOf, front + [spec])
            <==> !(Usable(spec) && !Taken(hashOf, before, hashOf(spec.password)) && spec.email in before)
  {
    LastWins(hashOf, front, spec, before);
    hide Wins, AllTaken, Taken, Usable;
    var specs, n := front + [spec], |front|;
    if Wins(hashOf, specs, n) && spec.email in before {
      var i: nat :| Wins(hashOf, front, i) && front[i] == before[spec.email] && front[i].email == spec.email;
      WinnerInRange(hashOf, front, i);
      WinsFront(hashOf, front, spec, i);
      assert specs[i].email == specs[n].email;
    } else {
      forall i: nat, j: nat | i < j && Wins(hashOf, specs, i) && Wins(hashOf, specs, j)
        ensures specs[i].email != specs[j].email
      {
        WinnerInRange(hashOf, specs, j);
        WinsFront(hashOf, front, spec, i);
        if j < n {
          WinsFront(hashOf, front, spec, j);
        }
      }
    }
  }

  lemma WinsStep(hashOf: Text -> Hash, front: seq<UserSpec>, spec: UserSpec, before: map<Text, UserSpec>)
    requires WinnersIn(hashOf, front, before) && OnlyWinners(hashOf, front, before) && AllTaken(hashOf, front, before)
    requires Usable(spec) && !Taken(hashOf, before, hashOf(spec.password)) ==> spec.email !in before
    ensures var after := AdmitNext(spec, Taken(hashOf, before, hashOf(spec.password)), before);
            WinnersIn(hashOf, front + [spec], after) && OnlyWinners(hashOf, front + [spec], after)
  {
    LastWins(hashOf, front, spec, before);
    hide Wins, AllTaken, Taken, Usable;
    var specs, n := front + [spec], |front|;
    var after := AdmitNext(spec, Taken(hashOf, before, hashOf(spec.password)), before);
    forall i: nat | Wins(hashOf, specs, i)
      ensures specs[i].email in after && after[specs[i].email] == specs[i]
    {
      WinnerInRange(hashOf, specs, i);
      if i < n {
        WinsFront(hashOf, front, spec, i);
      }
    }
    forall email | email in after
      ensures exists i: nat :: Wins(hashOf, specs, i) && specs[i] == after[email] && specs[i].email == email
    {
      if email in before {
        var i: nat :| Wins(hashOf, front, i) && front[i] == before[email] && front[i].email == email;
        WinnerInRange(hashOf, front, i);
        WinsFront(hashOf, front, spec, i);
      } else {
        assert Wins(hashOf, specs, n) && specs[n] == spec;
      }
    }
  }

  lemma WinnerInRange(hashOf: Text -> Hash, specs: seq<UserSpec>, i: nat)
    requires Wins(hashOf, specs, i)
    ensures i < |specs|
  {
  }

  lemma LastWins(hashOf: Text -> Hash, front: seq<UserSpec>, spec: UserSpec, before: map<Text, UserSpec>)
    requires OnlyWinners(hashOf, front, before) && AllTaken(hashOf, front, before)
    ensures Wins(hashOf, front + [spec], |front|) <==> Usable(spec) && !Taken(hashOf, before, hashOf(spec.password))
  {
    var specs := front + [spec];
    if Taken(hashOf, before, hashOf(spec.password)) {
      var email :| email in before && hashOf(before[email].password) == hashOf(spec.password);
      var i: nat :| Wins(hashOf, front, i) && front[i] == before[email] && front[i].email == email;
      assert specs[i] == front[i];
    }
    forall j | 0 <= j < |front| && Usable(specs[j]) && hashOf(specs[j].password) == hashOf(spec.password)
      ensures Taken(hashOf, before, hashOf(spec.password))
    {
      assert specs[j] == front[j];
    }
  }

  lemma TakenStep(hashOf: Text -> Hash, front: seq<UserSpec>, spec: UserSpec, before: map<Text, UserSpec>)
    requires AllTaken(hashOf, front, before)
    requires Usable(spec) && !Taken(hashOf, before, hashOf(spec.password)) ==> spec.email !in before
    ensures AllTaken(hashOf, front + [spec], AdmitNext(spec, Taken(hashOf, before, hashOf(spec.password)), before))
  {
    var specs := front + [spec];
    var after := AdmitNext(spec, Taken(hashOf, before, hashOf(spec.password)), before);
    forall i | 0 <= i < |specs| && Usable(specs[i])
      ensures Taken(hashOf, after, hashOf(specs[i].password))
    {
      if i < |front| {
        assert Taken(hashOf, before, hashOf(front[i].password));
        if after != before {
          TakenGrows(hashOf, before, spec, hashOf(specs[i].password));
        }
      } else if !Taken(hashOf, before, hashOf(spec.password)) {
        assert hashOf(after[spec.email].password) == hashOf(spec.password);
      }
    }
  }

  lemma WinsFront(hashOf: Text -> Hash, front: seq<UserSpec>, spec: UserSpec, i: nat)
    requires i < |front|
    ensures Wins(hashOf, front + [spec], i) <==> Wins(hashOf, front, i)
  {
    var specs := front + [spec];
    assert forall j :: 0 <= j <= i ==> specs[j] == front[j];
  }

  lemma TakenGrows(hashOf: Text -> Hash, admitted: map<Text, UserSpec>, spec: UserSpec, hash: Hash)
    requires Taken(hashOf, admitted, hash) && spec.email !in admitted
    ensures Taken(hashOf, admitted[spec.email := spec], hash)
  {
    var email :| email in admitted && hashOf(admitted[email].password) == hash;
    assert admitted[spec.email := spec][email] == admitted[email];
  }

  // ---- What `replace` does ----

  /** The user keeps its password: the old index knows the hash under the user's own entry. */
  predicate KeepsHash<E(==)>(r: Registry<E>, email: Text, hash: Hash)
  {
    email in r.byEmail && hash in r.byHash && r.byHash[hash] == r.byEmail[email]
  }

  /** The entry of an admitted user after the replacement. */
  function Renewed<E(==)>(r: Registry<E>, spec: UserSpec, hash: Hash): Entry
  {
    if spec.email in r.byEmail && r.byEmail[spec.email] in r.entries then
      var entry := ApplyLimits(r.entries[r.byEmail[spec.email]], spec);
      if KeepsHash(r, spec.email, hash) then entry else BumpGeneration(entry)
    else NewEntry(spec)
  }

  /** The entry serves its user in the index. */
  predicate Serves<E(==)>(r: Registry<E>, x: E)
  {
    x in r.entries && r.entries[x].email in r.byEmail && r.byEmail[r.entries[x].email] == x
  }

  /** The two indexes agree with the map of admitted users. */
  ghost predicate Indexes<E>(hashOf: Text -> Hash, admitted: map<Text, UserSpec>, r: Registry<E>)
  {
    && r.byEmail.Keys == admitted.Keys
    && (forall email :: email in r.byEmail ==>
          var hash := hashOf(admitted[email].password);
          hash in r.byHash && r.byHash[hash] == r.byEmail[email])
    && (forall hash :: hash in r.byHash ==>
          && Serves(r, r.byHash[hash])
          && r.entries[r.byHash[hash]].email in admitted
          && hashOf(admitted[r.entries[r.byHash[hash]].email].password) == hash)
  }

  /** Admitted users keep their entry, renewed, or get a new one. */
  ghost predicate AllRenewed<E>(hashOf: Text -> Hash, r: Registry<E>, admitted: map<Text, UserSpec>, r': Registry<E>)
  {
    forall email :: email in r'.byEmail && email in admitted ==>
      var x := r'.byEmail[email];
      && x in r'.entries
      && r'.entries[x] == Renewed(r, admitted[email], hashOf(admitted[email].password))
      && (if email in r.byEmail then x == r.byEmail[email] else x !in r.entries)
  }

  /** Old entries stay, and only entries in use are new. */
  ghost predicate NoStrays<E>(r: Registry<E>, r': Registry<E>)
  {
    && (forall x :: x in r'.entries ==> x in r.entries || Serves(r', x))
    && (forall x :: x in r.entries ==> x in r'.entries)
  }

  /** The old entry `x` serves a user that is admitted again. */
  predicate Stays<E(==)>(r: Registry<E>, admitted: map<Text, UserSpec>, x: E)
  {
    Serves(r, x) && r.entries[x].email in admitted
  }

  /** `replace`, as one step: admitted users keep or get their entry, everyone else in the old set is
      revoked, and no other entry changes. */
  ghost predicate Replaced<E>(hashOf: Text -> Hash, r: Registry<E>, specs: seq<UserSpec>, r': Registry<E>)
  {
    var admitted := Admitted(hashOf, specs);
    && Indexes(hashOf, admitted, r')
    && AllRenewed(hashOf, r, admitted, r')
    && NoStrays(r, r')
    && (forall x :: x in r.entries && !Stays(r, admitted, x) && x in r'.entries ==>
          r'.entries[x] == r.entries[x].(revoked := r.entries[x].revoked || Serves(r, x)))
  }

  /** Both indexes hold the same entries, each under its own email and under exactly one hash, and
      exactly the indexed entries are not revoked. */
  ghost predicate Consistent<E>(r: Registry<E>)
  {
    && (forall email :: email in r.byEmail ==> r.byEmail[email] in r.entries && r.entries[r.byEmail[email]].email == email)
    && (forall email :: email in r.byEmail ==> r.byEmail[email] in r.byHash.Values)
    && (forall hash :: hash in r.byHash ==> Serves(r, r.byHash[hash]))
    && (forall h1, h2 :: h1 in r.byHash && h2 in r.byHash && r.byHash[h1] == r.byHash[h2] ==> h1 == h2)
    && (forall x :: x in r.entries ==> r.entries[x].revoked == !Serves(r, x))
  }

  /** Users are admitted under their own email. */
  lemma {:induction false} AdmittedEmail(hashOf: Text -> Hash, specs: seq<UserSpec>, email: Text)
    requires email in Admitted(hashOf, specs)
    ensures Admitted(hashOf, specs)[email].email == email
  {
    var front := specs[..|specs| - 1];
    if email in Admitted(hashOf, front) {
      AdmittedEmail(hashOf, front, email);
    }
  }

  lemma RenewedUser<E>(r: Registry<E>, spec: UserSpec, hash: Hash)
    requires Consistent(r)
    ensures Renewed(r, spec, hash).email == spec.email && !Renewed(r, spec, hash).revoked
  {
    if spec.email in r.byEmail {
      assert Serves(r, r.byEmail[spec.email]);
    }
  }

  /** A winner is listed under its own email and hash and is not revoked. */
  lemma WinnerListed<E>(hashOf: Text -> Hash, r: Registry<E>, specs: seq<UserSpec>, r': Registry<E>, email: Text)
    requires Consistent(r) && Replaced(hashOf, r, specs, r') && email in r'.byEmail
    ensures var x := r'.byEmail[email];
            x in r'.entries && r'.entries[x].email == email && !r'.entries[x].revoked && x in r'.byHash.Values
  {
    var spec := Admitted(hashOf, specs)[email];
    AdmittedEmail(hashOf, specs, email);
    RenewedUser(r, spec, hashOf(spec.password));
    hide Admitted, Consistent, Renewed;
    assert r'.byHash[hashOf(spec.password)] == r'.byEmail[email];
  }

  /** Everybody else keeps or loses its standing as the old index says. */
  lemma OthersListed<E>(hashOf: Text -> Hash, r: Registry<E>, specs: seq<UserSpec>, r': Registry<E>, x: E)
    requires Consistent(r) && Replaced(hashOf, r, specs, r') && x in r'.entries && !Serves(r', x)
    ensures r'.entries[x].revoked
  {
    hide Admitted, Renewed;
    var admitted := Admitted(hashOf, specs);
    if !Stays(r, admitted, x) {
      assert r.entries[x].revoked == !Serves(r, x);
    }
  }

  /** A replacement leaves the registry consistent. */
  lemma ReplacedConsistent<E>(hashOf: Text -> Hash, r: Registry<E>, specs: seq<UserSpec>, r': Registry<E>)
    requires Consistent(r) && Replaced(hashOf, r, specs, r')
    ensures Consistent(r')
  {
    hide Admitted, Renewed;
    forall email | email in r'.byEmail
      ensures r'.byEmail[email] in r'.entries && r'.entries[r'.byEmail[email]].email == email
      ensures r'.byEmail[email] in r'.byHash.Values
    {
      WinnerListed(hashOf, r, specs, r', email);
    }
    forall x | x in r'.entries
      ensures r'.entries[x].revoked == !Serves(r', x)
    {
      if Serves(r', x) {
        WinnerListed(hashOf, r, specs, r', r'.entries[x].email);
      } else {
        OthersListed(hashOf, r, specs, r', x);
      }
    }
  }

  // ---- The loop of `replace`, step by step ----

  /** The new indexes hold the users admitted so far, whose entries are renewed; no other entry of
      the old registry has changed. */
  ghost predicate Replacing<E>(hashOf: Text -> Hash, r: Registry<E>, admitted: map<Text, UserSpec>, r': Registry<E>)
  {
    && Indexes(hashOf, admitted, r')
    && AllRenewed(hashOf, r, admitted, r')
    && NoStrays(r, r')
    && OthersSame(r, admitted, r')
  }

  ghost predicate OthersSame<E>(r: Registry<E>, admitted: map<Text, UserSpec>, r': Registry<E>)
  {
    forall x :: x in r.entries && !Stays(r, admitted, x) && x in r'.entries ==> r'.entries[x] == r.entries[x]
  }

  function Admit<E>(r: Registry<E>, spec: UserSpec, hash: Hash, x: E, entry: Entry): Registry<E>
  {
    Registry(r.byEmail[spec.email := x], r.byHash[hash := x], r.entries[x := entry])
  }

  /** Two hashes lead to entries of one user. */
  ghost predicate Broken<E>(r: Registry<E>)
  {
    exists h1, h2 ::
      && h1 in r.byHash && h2 in r.byHash && h1 != h2 && r.byHash[h1] in r.entries && r.byHash[h2] in r.entries
      && r.entries[r.byHash[h1]].email == r.entries[r.byHash[h2]].email
  }

  lemma BrokenInconsistent<E>(r: Registry<E>)
    requires Broken(r)
    ensures !Consistent(r)
  {
    var h1, h2 :|
      && h1 in r.byHash && h2 in r.byHash && h1 != h2 && r.byHash[h1] in r.entries && r.byHash[h2] in r.entries
      && r.entries[r.byHash[h1]].email == r.entries[r.byHash[h2]].email;
    if Serves(r, r.byHash[h1]) && Serves(r, r.byHash[h2]) {
      assert r.byHash[h1] == r.byHash[h2];
    }
  }

  /** What was broken stays so: hashes are only added, and entries keep their emails. */
  lemma BrokenStays<E>(r: Registry<E>, r': Registry<E>)
    requires Broken(r)
    requires forall h :: h in r.byHash ==> h in r'.byHash && r'.byHash[h] == r.byHash[h]
    requires forall x :: x in r.entries ==> x in r'.entries && r'.entries[x].email == r.entries[x].email
    ensures Broken(r')
  {
    var h1, h2 :|
      && h1 in r.byHash && h2 in r.byHash && h1 != h2 && r.byHash[h1] in r.entries && r.byHash[h2] in r.entries
      && r.entries[r.byHash[h1]].email == r.entries[r.byHash[h2]].email;
    assert h1 in r'.byHash && h2 in r'.byHash;
  }

  /** A second winner for an admitted user breaks the indexes. */
  lemma SecondWinnerBreaks<E>(hashOf: Text -> Hash, r: Registry<E>, admitted: map<Text, UserSpec>, r1: Registry<E>, hash: Hash,
                              email: Text, r': Registry<E>)
    requires Consistent(r) && Replacing(hashOf, r, admitted, r1) && email in admitted && admitted[email].email == email
    requires hash !in r1.byHash && hash in r'.byHash && r'.byHash[hash] in r'.entries
    requires r'.entries[r'.byHash[hash]].email == email
    requires forall h :: h in r1.byHash ==> h in r'.byHash && r'.byHash[h] == r1.byHash[h]
    requires forall x :: x in r1.entries ==> x in r'.entries && r'.entries[x].email == r1.entries[x].email
    ensures Broken(r')
  {
    var spec := admitted[email];
    var first := hashOf(spec.password);
    RenewedUser(r, spec, first);
    hide Consistent, Renewed, OthersSame, NoStrays;
    assert first in r1.byHash && r1.byHash[first] == r1.byEmail[email];
    assert r1.entries[r1.byEmail[email]] == Renewed(r, spec, first);
    assert first in r'.byHash && first != hash;
  }

  /** The check on the new hash index is the check on the users admitted so far. */
  lemma TakenIsIndexed<E>(hashOf: Text -> Hash, admitted: map<Text, UserSpec>, r: Registry<E>, hash: Hash)
    requires Indexes(hashOf, admitted, r)
    ensures hash in r.byHash <==> Taken(hashOf, admitted, hash)
  {
    if hash in r.byHash {
      assert hashOf(admitted[r.entries[r.byHash[hash]].email].password) == hash;
    }
  }

  lemma AdmitIndexes<E>(hashOf: Text -> Hash, admitted: map<Text, UserSpec>, r: Registry<E>, spec: UserSpec, x: E, entry: Entry)
    requires Indexes(hashOf, admitted, r) && hashOf(spec.password) !in r.byHash && spec.email !in admitted
    requires entry.email == spec.email
    requires x in r.entries ==> r.entries[x].email == spec.email
    ensures Indexes(hashOf, admitted[spec.email := spec], Admit(r, spec, hashOf(spec.password), x, entry))
  {
    var hash := hashOf(spec.password);
    var r' := Admit(r, spec, hash, x, entry);
    var admitted' := admitted[spec.email := spec];
    assert r'.byEmail.Keys == admitted'.Keys;
    forall email | email in r'.byEmail
      ensures var h := hashOf(admitted'[email].password);
              h in r'.byHash && r'.byHash[h] == r'.byEmail[email]
    {
      if email != spec.email {
        assert email in r.byEmail;
      }
    }
    forall h | h in r'.byHash
      ensures && Serves(r', r'.byHash[h])
              && r'.entries[r'.byHash[h]].email in admitted'
              && hashOf(admitted'[r'.entries[r'.byHash[h]].email].password) == h
    {
      if h != hash {
        assert Serves(r, r.byHash[h]);
      }
    }
  }

  lemma AdmitRenews<E>(hashOf: Text -> Hash, r: Registry<E>, admitted: map<Text, UserSpec>, r1: Registry<E>, spec: UserSpec, x: E)
    requires Consistent(r) && AllRenewed(hashOf, r, admitted, r1) && r1.byEmail.Keys == admitted.Keys && spec.email !in admitted
    requires if spec.email in r.byEmail then x == r.byEmail[spec.email] else x !in r1.entries && x !in r.entries
    ensures var hash := hashOf(spec.password);
            AllRenewed(hashOf, r, admitted[spec.email := spec], Admit(r1, spec, hash, x, Renewed(r, spec, hash)))
  {
    hide Renewed;
    var hash := hashOf(spec.password);
    var r2 := Admit(r1, spec, hash, x, Renewed(r, spec, hash));
    forall email | email in r1.byEmail
      ensures r1.byEmail[email] != x
    {
      if email in r.byEmail && spec.email in r.byEmail {
        assert r.entries[r.byEmail[email]].email == email;
      }
    }
  }

  lemma AdmitOthers<E>(r: Registry<E>, admitted: map<Text, UserSpec>, r1: Registry<E>, spec: UserSpec, hash: Hash, x: E, entry: Entry)
    requires NoStrays(r, r1) && OthersSame(r, admitted, r1) && spec.email !in r1.byEmail && entry.email == spec.email
    requires if spec.email in r.byEmail then x == r.byEmail[spec.email] && Serves(r, x) && r.entries[x].email == spec.email else x !in r1.entries
    ensures NoStrays(r, Admit(r1, spec, hash, x, entry))
    ensures OthersSame(r, admitted[spec.email := spec], Admit(r1, spec, hash, x, entry))
  {
    var r2 := Admit(r1, spec, hash, x, entry);
    forall y | y in r2.entries
      ensures y in r.entries || Serves(r2, y)
    {
      if y != x && y !in r.entries {
        assert Serves(r1, y);
      }
    }
  }

  lemma AdmitStep<E>(hashOf: Text -> Hash, r: Registry<E>, admitted: map<Text, UserSpec>, r1: Registry<E>, spec: UserSpec, x: E)
    requires Consistent(r) && Replacing(hashOf, r, admitted, r1)
    requires spec.email !in admitted && hashOf(spec.password) !in r1.byHash
    requires if spec.email in r.byEmail then x == r.byEmail[spec.email] else x !in r1.entries
    ensures var hash := hashOf(spec.password);
            Replacing(hashOf, r, admitted[spec.email := spec], Admit(r1, spec, hash, x, Renewed(r, spec, hash)))
    ensures spec.email in r.byEmail ==> x in r1.entries && r1.entries[x] == r.entries[x]
  {
    var hash := hashOf(spec.password);
    RenewedUser(r, spec, hash);
    if spec.email in r.byEmail {
      assert Serves(r, x) && !Stays(r, admitted, x);
    }
    hide Renewed;
    AdmitIndexes(hashOf, admitted, r1, spec, x, Renewed(r, spec, hash));
    AdmitRenews(hashOf, r, admitted, r1, spec, x);
    AdmitOthers(r, admitted, r1, spec, hash, x, Renewed(r, spec, hash));
  }

  /** Of the old users in `done`, those not admitted again are revoked; nothing else has changed. */
  ghost predicate Revoking<E>(r: Registry<E>, admitted: map<Text, UserSpec>, done: set<Text>, r1: Registry<E>, r': Registry<E>)
  {
    && r'.byEmail == r1.byEmail && r'.byHash == r1.byHash && r'.entries.Keys == r1.entries.Keys
    && forall x :: x in r1.entries ==>
         var leaves := Serves(r, x) && r.entries[x].email !in admitted && r.entries[x].email in done;
         r'.entries[x] == r1.entries[x].(revoked := r1.entries[x].revoked || leaves)
  }

  /** Revoking touches no admitted user, so the indexes still fit. */
  lemma RevokedIndexes<E>(hashOf: Text -> Hash, admitted: map<Text, UserSpec>, r1: Registry<E>, r': Registry<E>)
    requires Indexes(hashOf, admitted, r1) && r'.byEmail == r1.byEmail && r'.byHash == r1.byHash
    requires r'.entries.Keys == r1.entries.Keys
    requires forall x :: x in r1.entries ==> r'.entries[x].email == r1.entries[x].email
    ensures Indexes(hashOf, admitted, r')
  {
    forall hash | hash in r'.byHash
      ensures Serves(r', r'.byHash[hash])
    {
      assert Serves(r1, r1.byHash[hash]);
    }
  }

  lemma RevokedWinners<E>(hashOf: Text -> Hash, r: Registry<E>, admitted: map<Text, UserSpec>, r1: Registry<E>, r': Registry<E>)
    requires Consistent(r) && AllRenewed(hashOf, r, admitted, r1) && Revoking(r, admitted, r.byEmail.Keys, r1, r')
    ensures AllRenewed(hashOf, r, admitted, r')
  {
    hide Renewed;
    forall email | email in r'.byEmail && email in admitted
      ensures r1.byEmail[email] in r1.entries && r'.entries[r1.byEmail[email]] == r1.entries[r1.byEmail[email]]
    {
      var x := r1.byEmail[email];
      if email in r.byEmail {
        assert r.entries[x].email == email;
      }
    }
  }

  lemma RevokedIsReplaced<E>(hashOf: Text -> Hash, r: Registry<E>, specs: seq<UserSpec>, r1: Registry<E>, r': Registry<E>)
    requires Consistent(r) && Replacing(hashOf, r, Admitted(hashOf, specs), r1)
    requires Revoking(r, Admitted(hashOf, specs), r.byEmail.Keys, r1, r')
    ensures Replaced(hashOf, r, specs, r')
  {
    hide Renewed, Admitted, Consistent;
    var admitted := Admitted(hashOf, specs);
    RevokedIndexes(hashOf, admitted, r1, r');
    RevokedWinners(hashOf, r, admitted, r1, r');
    hide Indexes, AllRenewed;
    forall x | x in r'.entries
      ensures x in r.entries || Serves(r', x)
    {
      assert x in r.entries || Serves(r1, x);
    }
  }

  // ---- The objects ----

  /** A user's live state, shared by the indexes and by every connection of the user. */
  class UserEntry {
    const email: Text
    var generation: U64
    var up: U64
    var down: U64
    var connections: int
    var quotaBytes: U64
    var quotaBase: U64
    var expiresUnix: int
    var revoked: bool

    ghost function View(): Entry
      reads this
    {
      Entry(email, generation, up, down, connections, quotaBytes, quotaBase, expiresUnix, revoked)
    }

    constructor (spec: UserSpec)
      ensures View() == NewEntry(spec)
    {
      email := spec.email;
      generation, up, down, connections := 0, 0, 0, 0;
      quotaBytes, quotaBase, expiresUnix, revoked := spec.quotaBytes, 0, spec.expiresUnix, false;
    }

    method RecordUp(bytes: U64)
      modifies this
      ensures View() == old(View()).(up := (old(up) + bytes) % U64_MODULUS)
    {
      up := (up + bytes) % U64_MODULUS;
    }

    method RecordDown(bytes: U64)
      modifies this
      ensures View() == old(View()).(down := (old(down) + bytes) % U64_MODULUS)
    {
      down := (down + bytes) % U64_MODULUS;
    }

    /** Starts a new quota window: nothing is used, and the counters stay. */
    method ResetQuota()
      modifies this
      ensures View() == old(View()).(quotaBase := old(View()).Total())
      ensures View().QuotaUsed() == 0
    {
      quotaBase := if up + down < U64_MODULUS then up + down else U64_MODULUS - 1;
    }

    method Renew(spec: UserSpec, rekeyed: bool)
      modifies this
      ensures var limited := ApplyLimits(old(View()), spec);
              View() == if rekeyed then BumpGeneration(limited) else limited
    {
      quotaBytes, expiresUnix := spec.quotaBytes, spec.expiresUnix;
      if rekeyed {
        generation := (generation + 1) % U64_MODULUS;
      }
    }

    method DenyReasonAt(now: int) returns (reason: Option<DenyReason>)
      ensures reason == View().DenyReasonAt(now)
    {
      if revoked {
        return Some(Revoked);
      }
      if expiresUnix > 0 && now >= expiresUnix {
        return Some(Expired);
      }
      var total := if up + down < U64_MODULUS then up + down else U64_MODULUS - 1;
      var used := if total >= quotaBase then total - quotaBase else 0;
      if quotaBytes > 0 && used >= quotaBytes {
        return Some(QuotaExceeded);
      }
      reason := None;
    }

    method Revoke()
      modifies this
      ensures View() == old(View()).(revoked := true)
    {
      revoked := true;
    }
  }

  /** A user resolved at authentication time, held for the life of one connection. */
  class AuthedUser {
    const entry: UserEntry
    const generation: U64

    /** Takes the generation snapshot and counts the connection. */
    constructor (entry: UserEntry)
      modifies entry
      ensures this.entry == entry && generation == old(entry.generation)
      ensures entry.View() == old(entry.View()).(connections := old(entry.connections) + 1)
    {
      this.entry, generation := entry, entry.generation;
      new;
      entry.connections := entry.connections + 1;
    }

    /** Why the connection must stop: a password change since the snapshot, or the user's own limits. */
    method DenyReason(now: int) returns (reason: Option<DenyReason>)
      ensures reason == GuardDenial(entry.View(), generation, now)
    {
      if entry.generation != generation {
        return Some(Revoked);
      }
      reason := entry.DenyReasonAt(now);
    }

    method Drop()
      modifies entry
      ensures entry.View() == old(entry.View()).(connections := old(entry.connections) - 1)
    {
      entry.connections := entry.connections - 1;
    }
  }

  class UserRegistry {
    const hashOf: Text -> Hash
    var byEmail: map<Text, UserEntry>
    var byHash: map<Hash, UserEntry>
    ghost var all: set<UserEntry>

    ghost function View(): Registry<UserEntry>
      reads this, all
    {
      Registry(byEmail, byHash, map x | x in all :: x.View())
    }

    ghost predicate Valid()
      reads this, all
    {
      Consistent(View())
    }

    constructor (hashOf: Text -> Hash)
      ensures Valid() && View() == Registry(map[], map[], map[]) && this.hashOf == hashOf
    {
      this.hashOf := hashOf;
      byEmail, byHash, all := map[], map[], {};
    }

    /** `authenticate` without interference: the user of the hash, if it is known and not denied now,
        under a guard that counts as a connection; nothing changes otherwise. */
    method Authenticate(hash: Hash, now: int) returns (user: Option<AuthedUser>)
      requires Valid()
      modifies all
      ensures user.Some? <==> old(LetsIn(View(), hash, now))
      ensures user.Some? ==> hash in byHash && byHash[hash] in all
      ensures user.None? ==> View() == old(View())
      ensures user.Some? ==>
                && user.value.entry == byHash[hash] && user.value.generation == byHash[hash].generation
                && GuardDenial(byHash[hash].View(), user.value.generation, now).None?
                && View().entries == old(View().entries)[byHash[hash] := byHash[hash].View()]
                && byHash[hash].View() == old(byHash[hash].View()).(connections := old(byHash[hash].connections) + 1)
    {
      hide Consistent;
      if |hash| != HASH_SIZE || hash !in byHash {
        return None;
      }
      var entry := byHash[hash];
      IndexedEntry(View(), hash);
      var reason := entry.DenyReasonAt(now);
      if reason.Some? {
        return None;
      }
      var guard := new AuthedUser(entry);
      assert View().entries == old(View().entries)[entry := entry.View()];
      return Some(guard);
    }

    /** The entry of a winning spec: the existing one, renewed, or a new one. The user may have been
        given an entry in this replacement before. */
    method EntryFor(spec: UserSpec, hash: Hash, ghost before: Registry<UserEntry>) returns (entry: UserEntry)
      requires byEmail == before.byEmail && byHash == before.byHash
      requires spec.email in byEmail ==> byEmail[spec.email] in all && byEmail[spec.email].email == spec.email
      modifies this`all, all
      ensures all == old(all) + {entry} && fresh(all - old(all)) && entry.email == spec.email
      ensures if spec.email in byEmail then entry == byEmail[spec.email] else fresh(entry)
      ensures forall x :: x in old(all) && x != entry ==> x.View() == old(x.View())
      ensures (spec.email in byEmail ==>
                 var x := byEmail[spec.email];
                 x in before.entries && old(x.View()) == before.entries[x]) ==>
                View().entries == old(View().entries)[entry := Renewed(before, spec, hash)]
    {
      if spec.email in byEmail {
        entry := byEmail[spec.email];
        entry.Renew(spec, !(hash in byHash && byHash[hash] == entry));
      } else {
        entry := new UserEntry(spec);
        all := all + {entry};
      }
    }

    /** Replaces the whole user set in place. The registry stays consistent if and only if no two
        winners of the list have the same email, and then this is exactly one replacement. */
    method Replace(specs: seq<UserSpec>)
      requires Valid()
      modifies this, all
      ensures fresh(all - old(all))
      ensures ClearWinners(hashOf, specs) ==> Replaced(hashOf, old(View()), specs, View())
      ensures Valid() <==> ClearWinners(hashOf, specs)
    {
      hide Consistent, Replaced, Replacing, Revoking, Admitted, ClearWinners, Broken;
      ghost var before := View();
      var newByEmail, newByHash := Collect(specs, before);
      ghost var collected := Registry(newByEmail, newByHash, View().entries);
      ghost var admitted := if ClearWinners(hashOf, specs) then Admitted(hashOf, specs)
                            else map email | email in newByEmail :: UserSpec(email, [], 0, 0);
      if ClearWinners(hashOf, specs) {
        ReplacingKeys(hashOf, before, admitted, collected);
      }
      RevokeMissing(newByEmail, before, admitted, collected);
      ghost var entries := View().entries;
      byEmail, byHash := newByEmail, newByHash;
      assert View().entries == entries;
      if ClearWinners(hashOf, specs) {
        RevokedIsReplaced(hashOf, before, specs, collected, View());
        ReplacedConsistent(hashOf, before, specs, View());
      } else {
        RevokedEmails(before, admitted, before.byEmail.Keys, collected, View());
        BrokenStays(collected, View());
        BrokenInconsistent(View());
      }
    }

    /** Puts one winner into the new indexes. */
    method AdmitOne(spec: UserSpec, hash: Hash, byEmail0: map<Text, UserEntry>, byHash0: map<Hash, UserEntry>,
                    ghost before: Registry<UserEntry>, ghost admitted: map<Text, UserSpec>)
      returns (byEmail1: map<Text, UserEntry>, byHash1: map<Hash, UserEntry>)
      requires byEmail == before.byEmail && byHash == before.byHash && Consistent(before) && Named(before)
      requires before.entries.Keys <= all
      requires hash == hashOf(spec.password) && hash !in byHash0
      modifies this`all, all
      ensures fresh(all - old(all)) && old(all) <= all
      ensures hash in byHash1 && byHash1[hash] in all && byHash1[hash].email == spec.email
      ensures forall h :: h in byHash0 ==> h in byHash1 && byHash1[h] == byHash0[h]
      ensures old(Replacing(hashOf, before, admitted, Registry(byEmail0, byHash0, View().entries)))
              && spec.email !in admitted ==>
                Replacing(hashOf, before, admitted[spec.email := spec], Registry(byEmail1, byHash1, View().entries))
    {
      hide Consistent, Replacing, Renewed;
      ghost var now := Registry(byEmail0, byHash0, View().entries);
      ghost var fits := Replacing(hashOf, before, admitted, now) && spec.email !in admitted;
      if spec.email in byEmail {
        EntryEmail(before, spec.email);
      }
      if fits {
        ReplacingFacts(hashOf, before, admitted, now, spec);
      }
      var entry := EntryFor(spec, hash, before);
      if fits {
        AdmitStep(hashOf, before, admitted, now, spec, entry);
      }
      byEmail1 := byEmail0[spec.email := entry];
      byHash1 := byHash0[hash := entry];
    }

    /** Emails are fixed when an entry is made. */
    static ghost predicate Named(r: Registry<UserEntry>)
    {
      forall x :: x in r.entries ==> r.entries[x].email == x.email
    }

    /** The first loop: builds the new indexes, which are broken exactly if a user wins twice. */
    method Collect(specs: seq<UserSpec>, ghost before: Registry<UserEntry>)
      returns (newByEmail: map<Text, UserEntry>, newByHash: map<Hash, UserEntry>)
      requires before == View() && Consistent(before)
      modifies this`all, all
      ensures fresh(all - old(all)) && old(all) <= all
      ensures var now := Registry(newByEmail, newByHash, View().entries);
              if ClearWinners(hashOf, specs) then Replacing(hashOf, before, Admitted(hashOf, specs), now) else Broken(now)
    {
      hide Consistent, Replacing, Admitted, Taken, ClearWinners, Broken;
      newByEmail, newByHash := map[], map[];
      ReplacingNothing(hashOf, before, specs);
      NoneWin(hashOf, specs);
      for i := 0 to |specs|
        invariant fresh(all - old(all)) && old(all) <= all
        invariant var now := Registry(newByEmail, newByHash, View().entries);
                  if ClearWinners(hashOf, specs[..i]) then Replacing(hashOf, before, Admitted(hashOf, specs[..i]), now)
                  else Broken(now)
      {
        var spec := specs[i];
        ghost var admitted := Admitted(hashOf, specs[..i]);
        ghost var now := Registry(newByEmail, newByHash, View().entries);
        CollectNext(hashOf, before, specs, i, now);
        if Usable(spec) && hashOf(spec.password) !in newByHash {
          newByEmail, newByHash := AdmitOne(spec, hashOf(spec.password), newByEmail, newByHash, before, admitted);
          ghost var next := Registry(newByEmail, newByHash, View().entries);
          CollectBroken(hashOf, before, specs, i, now, next);
          assert ClearWinners(hashOf, specs[..i + 1]) ==> ClearWinners(hashOf, specs[..i]) by {
            if ClearWinners(hashOf, specs[..i + 1]) {
              NotClearStays(hashOf, specs, i);
            }
          }
        }
      }
      assert specs[..|specs|] == specs;
    }

    method RevokeOne(entry: UserEntry)
      requires entry in all
      modifies entry
      ensures View().entries == old(View().entries)[entry := old(entry.View()).(revoked := true)]
    {
      entry.Revoke();
    }

    /** The second loop: revokes the users that are gone. */
    method RevokeMissing(newByEmail: map<Text, UserEntry>, ghost before: Registry<UserEntry>,
                         ghost admitted: map<Text, UserSpec>, ghost collected: Registry<UserEntry>)
      requires Consistent(before) && byEmail == before.byEmail && before.entries.Keys <= all
      requires newByEmail.Keys == admitted.Keys && collected.entries == View().entries
      modifies all
      ensures Revoking(before, admitted, before.byEmail.Keys, collected,
                       Registry(collected.byEmail, collected.byHash, View().entries))
    {
      hide Consistent, Revoking;
      var todo := byEmail.Keys;
      RevokingNothing(before, admitted, collected);
      assert collected == Registry(collected.byEmail, collected.byHash, View().entries);
      assert byEmail.Keys - todo == {};
      while todo != {}
        invariant todo <= byEmail.Keys
        invariant View().entries.Keys == all
        invariant Revoking(before, admitted, byEmail.Keys - todo, collected,
                           Registry(collected.byEmail, collected.byHash, View().entries))
      {
        var email :| email in todo;
        ghost var now := Registry(collected.byEmail, collected.byHash, View().entries);
        ServedEntry(before, email);
        RevokeStep(before, admitted, byEmail.Keys - todo, collected, now, email);
        assert byEmail.Keys - todo + {email} == byEmail.Keys - (todo - {email});
        if email !in newByEmail {
          RevokeOne(byEmail[email]);
        }
        todo := todo - {email};
      }
      assert byEmail.Keys - {} == byEmail.Keys;
    }
  }

  lemma IndexedEntry<E>(r: Registry<E>, hash: Hash)
    requires Consistent(r) && hash in r.byHash
    ensures r.byHash[hash] in r.entries
  {
  }

  lemma ServedEntry<E>(r: Registry<E>, email: Text)
    requires Consistent(r) && email in r.byEmail
    ensures r.byEmail[email] in r.entries
  {
  }

  lemma EntryEmail<E>(r: Registry<E>, email: Text)
    requires Consistent(r) && email in r.byEmail
    ensures r.byEmail[email] in r.entries && r.entries[r.byEmail[email]].email == email
  {
  }

  lemma NoneWin(hashOf: Text -> Hash, specs: seq<UserSpec>)
    ensures ClearWinners(hashOf, specs[..0])
  {
  }

  /** How the next spec changes who is admitted, as long as the winners are clear. */
  lemma AdmittedNext(hashOf: Text -> Hash, specs: seq<UserSpec>, i: nat)
    requires i < |specs| && ClearWinners(hashOf, specs[..i])
    ensures var admitted := Admitted(hashOf, specs[..i]);
            var wins := Usable(specs[i]) && !Taken(hashOf, admitted, hashOf(specs[i].password));
            && (ClearWinners(hashOf, specs[..i + 1]) <==> !(wins && specs[i].email in admitted))
            && Admitted(hashOf, specs[..i + 1]) == if wins then admitted[specs[i].email := specs[i]] else admitted
  {
    var front := specs[..i];
    assert specs[..i + 1] == front + [specs[i]] && specs[..i + 1][..i] == front;
    AdmittedAreWinners(hashOf, front);
    hide WinnersIn, OnlyWinners, AllTaken, Taken, Usable, ClearWinners;
    ClearNext(hashOf, front, specs[i], Admitted(hashOf, front));
  }

  lemma NotClearStays(hashOf: Text -> Hash, specs: seq<UserSpec>, i: nat)
    requires i < |specs| && ClearWinners(hashOf, specs[..i + 1])
    ensures ClearWinners(hashOf, specs[..i])
  {
    assert specs[..i + 1] == specs[..i] + [specs[i]];
    ClearFront(hashOf, specs[..i], specs[i]);
  }

  /** The state of the first loop before and after spec `i`, when it is not a winner. */
  lemma CollectNext<E>(hashOf: Text -> Hash, r: Registry<E>, specs: seq<UserSpec>, i: nat, now: Registry<E>)
    requires i < |specs| && Consistent(r)
    requires if ClearWinners(hashOf, specs[..i]) then Replacing(hashOf, r, Admitted(hashOf, specs[..i]), now) else Broken(now)
    ensures var wins := Usable(specs[i]) && hashOf(specs[i].password) !in now.byHash;
            && (!wins ==> if ClearWinners(hashOf, specs[..i + 1])
                          then Replacing(hashOf, r, Admitted(hashOf, specs[..i + 1]), now) else Broken(now))
            && (wins && ClearWinners(hashOf, specs[..i]) ==>
                  && Admitted(hashOf, specs[..i + 1]) == Admitted(hashOf, specs[..i])[specs[i].email := specs[i]]
                  && (ClearWinners(hashOf, specs[..i + 1]) <==> specs[i].email !in Admitted(hashOf, specs[..i])))
  {
    hide Consistent, Admitted, Taken, ClearWinners, Broken, AllRenewed, NoStrays, OthersSame, Indexes;
    if ClearWinners(hashOf, specs[..i]) {
      AdmittedNext(hashOf, specs, i);
      TakenIsIndexed(hashOf, Admitted(hashOf, specs[..i]), now, hashOf(specs[i].password));
    } else if ClearWinners(hashOf, specs[..i + 1]) {
      NotClearStays(hashOf, specs, i);
    }
  }

  /** A winner that breaks the indexes, or finds them broken. */
  lemma CollectBroken<E>(hashOf: Text -> Hash, r: Registry<E>, specs: seq<UserSpec>, i: nat, now: Registry<E>, next: Registry<E>)
    requires i < |specs| && Consistent(r) && Usable(specs[i]) && hashOf(specs[i].password) !in now.byHash
    requires if ClearWinners(hashOf, specs[..i]) then Replacing(hashOf, r, Admitted(hashOf, specs[..i]), now) else Broken(now)
    requires var hash := hashOf(specs[i].password);
             hash in next.byHash && next.byHash[hash] in next.entries && next.entries[next.byHash[hash]].email == specs[i].email
    requires forall h :: h in now.byHash ==> h in next.byHash && next.byHash[h] == now.byHash[h]
    requires forall x :: x in now.entries ==> x in next.entries && next.entries[x].email == now.entries[x].email
    ensures !ClearWinners(hashOf, specs[..i + 1]) ==> Broken(next)
  {
    hide Consistent, Admitted, Taken, ClearWinners, Broken, Replacing;
    if !ClearWinners(hashOf, specs[..i + 1]) {
      if ClearWinners(hashOf, specs[..i]) {
        CollectNext(hashOf, r, specs, i, now);
        AdmittedEmail(hashOf, specs[..i], specs[i].email);
        SecondWinnerBreaks(hashOf, r, Admitted(hashOf, specs[..i]), now, hashOf(specs[i].password), specs[i].email, next);
      } else {
        BrokenStays(now, next);
      }
    }
  }

  lemma RevokedEmails<E>(r: Registry<E>, admitted: map<Text, UserSpec>, done: set<Text>, r1: Registry<E>, r': Registry<E>)
    requires Revoking(r, admitted, done, r1, r')
    ensures r'.byHash == r1.byHash
    ensures forall x :: x in r1.entries ==> x in r'.entries && r'.entries[x].email == r1.entries[x].email
  {
  }

  lemma ReplacingNothing<E>(hashOf: Text -> Hash, r: Registry<E>, specs: seq<UserSpec>)
    requires Consistent(r)
    ensures Replacing(hashOf, r, Admitted(hashOf, specs[..0]), Registry(map[], map[], r.entries))
  {
  }

  /** The new hash index knows the hashes taken so far, and a user not admitted yet still has its
      old entry. */
  lemma ReplacingFacts<E>(hashOf: Text -> Hash, r: Registry<E>, admitted: map<Text, UserSpec>, r1: Registry<E>, spec: UserSpec)
    requires Consistent(r) && Replacing(hashOf, r, admitted, r1) && spec.email !in admitted
    ensures hashOf(spec.password) in r1.byHash <==> Taken(hashOf, admitted, hashOf(spec.password))
    ensures r1.byEmail.Keys == admitted.Keys
    ensures spec.email in r.byEmail ==>
              var x := r.byEmail[spec.email];
              x in r.entries && x in r1.entries && r1.entries[x] == r.entries[x]
  {
    TakenIsIndexed(hashOf, admitted, r1, hashOf(spec.password));
    hide Renewed, Taken;
    if spec.email in r.byEmail {
      var x := r.byEmail[spec.email];
      assert Serves(r, x) && !Stays(r, admitted, x);
    }
  }

  lemma ReplacingKeys<E>(hashOf: Text -> Hash, r: Registry<E>, admitted: map<Text, UserSpec>, r1: Registry<E>)
    requires Replacing(hashOf, r, admitted, r1)
    ensures r1.byEmail.Keys == admitted.Keys
  {
    hide AllRenewed, NoStrays, OthersSame;
  }

  lemma RevokeStep<E>(r: Registry<E>, admitted: map<Text, UserSpec>, done: set<Text>, r1: Registry<E>, r': Registry<E>, email: Text)
    requires Consistent(r) && Revoking(r, admitted, done, r1, r') && email in r.byEmail && r.byEmail[email] in r1.entries
    ensures email in admitted ==> Revoking(r, admitted, done + {email}, r1, r')
    ensures email !in admitted ==>
              var x := r.byEmail[email];
              x in r'.entries && Revoking(r, admitted, done + {email}, r1, r'.(entries := r'.entries[x := r'.entries[x].(revoked := true)]))
  {
    var x := r.byEmail[email];
    assert r.entries[x].email == email;
    hide Consistent;
    forall y | y in r1.entries && y != x
      ensures Serves(r, y) ==> r.entries[y].email != email
    {
    }
  }

  lemma RevokingNothing<E>(r: Registry<E>, admitted: map<Text, UserSpec>, r1: Registry<E>)
    ensures Revoking(r, admitted, {}, r1, r1)
  {
  }
}
