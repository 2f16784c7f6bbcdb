/** Whole runs of the user registry: what a session's guard reports, and what the counters mean. */
module UserRuns {
  import opened Bytes
  import opened Options
  import opened Texts
  import opened Users

  /** One atomic change to the registry or to an entry. A quota reset loads the two counters, which
      changes nothing, and later stores their sum: `StoreBase` is the store of a reset that loaded the
      upward counter at moment `upAt` and the downward one at moment `downAt`. */
  datatype Change<E> =
    | Replace(specs: seq<UserSpec>)
    | RecordUp(x: E, bytes: U64)
    | RecordDown(x: E, bytes: U64)
    | StoreBase(x: E, upAt: nat, downAt: nat, base: U64)
    | Connect(x: E)
    | Disconnect(x: E)

  /** The entry after a change that concerns only it. */
  function Changed<E>(entry: Entry, c: Change<E>): Entry
    requires !c.Replace?
  {
    match c
    case RecordUp(_, bytes) => entry.(up := (entry.up + bytes) % U64_MODULUS)
    case RecordDown(_, bytes) => entry.(down := (entry.down + bytes) % U64_MODULUS)
    case StoreBase(_, _, _, base) => entry.(quotaBase := base)
    case Connect(_) => entry.(connections := entry.connections + 1)
    case Disconnect(_) => entry.(connections := entry.connections - 1)
  }

  ghost predicate Next<E>(hashOf: Text -> Hash, r: Registry<E>, c: Change<E>, r': Registry<E>)
  {
    if c.Replace? then ClearWinners(hashOf, c.specs) && Replaced(hashOf, r, c.specs, r')
    else c.x in r.entries && r' == r.(entries := r.entries[c.x := Changed(r.entries[c.x], c)])
  }

  /** The value a reset stores at moment `t` is what it loaded before, one counter after the other. */
  ghost predicate Loaded<E>(rs: seq<Registry<E>>, c: Change<E>, t: nat)
  {
    c.StoreBase? ==>
      && c.upAt <= c.downAt <= t < |rs| && c.x in rs[c.upAt].entries && c.x in rs[c.downAt].entries
      && c.base == SaturatingSum(rs[c.upAt].entries[c.x].up, rs[c.downAt].entries[c.x].down)
  }

  /** `rs` are the states of a run with the changes `cs`; any number of resets may be under way. */
  ghost predicate IsRun<E>(hashOf: Text -> Hash, rs: seq<Registry<E>>, cs: seq<Change<E>>)
  {
    && |rs| == |cs| + 1
    && forall t :: 0 <= t < |cs| ==> Next(hashOf, rs[t], cs[t], rs[t + 1]) && Loaded(rs, cs[t], t)
  }

  // ---- The indexes refine one map ----

  /** The users admitted by the last replacement. */
  ghost function Current<E>(hashOf: Text -> Hash, cs: seq<Change<E>>): map<Text, UserSpec>
  {
    if cs == [] then map[]
    else if cs[|cs| - 1].Replace? then Admitted(hashOf, cs[|cs| - 1].specs)
    else Current(hashOf, cs[..|cs| - 1])
  }

  /** Changes of counters and limits do not concern the indexes. */
  ghost predicate SameUsers<E>(r: Registry<E>, r': Registry<E>)
  {
    && r'.byEmail == r.byEmail && r'.byHash == r.byHash && r'.entries.Keys == r.entries.Keys
    && forall x :: x in r.entries ==>
         r'.entries[x].email == r.entries[x].email && r'.entries[x].revoked == r.entries[x].revoked &&
         r'.entries[x].generation == r.entries[x].generation
  }

  lemma ChangeSameUsers<E>(hashOf: Text -> Hash, r: Registry<E>, c: Change<E>, r': Registry<E>)
    requires Next(hashOf, r, c, r') && !c.Replace?
    ensures SameUsers(r, r')
  {
  }

  lemma SameUsersConsistent<E>(r: Registry<E>, r': Registry<E>)
    requires Consistent(r) && SameUsers(r, r')
    ensures Consistent(r')
  {
    forall hash | hash in r'.byHash
      ensures Serves(r', r'.byHash[hash])
    {
      assert Serves(r, r.byHash[hash]);
    }
    forall x | x in r'.entries
      ensures r'.entries[x].revoked == !Serves(r', x)
    {
      assert r.entries[x].revoked == !Serves(r, x);
    }
  }

  lemma NextConsistent<E>(hashOf: Text -> Hash, r: Registry<E>, c: Change<E>, r': Registry<E>)
    requires Next(hashOf, r, c, r') && Consistent(r)
    ensures Consistent(r')
  {
    hide Consistent, Replaced;
    if c.Replace? {
      ReplacedConsistent(hashOf, r, c.specs, r');
    } else {
      ChangeSameUsers(hashOf, r, c, r');
      SameUsersConsistent(r, r');
    }
  }

  /** After any run of replacements and traffic the two indexes are consistent, and together they are
      exactly the map "first usable spec of each new hash" of the last replacement. */
  lemma {:induction false} IndexesRefineMap<E>(hashOf: Text -> Hash, rs: seq<Registry<E>>, cs: seq<Change<E>>)
    requires IsRun(hashOf, rs, cs) && rs[0] == Registry(map[], map[], map[])
    ensures Consistent(rs[|cs|]) && Indexes(hashOf, Current(hashOf, cs), rs[|cs|])
    decreases |cs|
  {
    if cs != [] {
      var n := |cs| - 1;
      var c := cs[n];
      IndexesRefineMap(hashOf, rs[..n + 1], cs[..n]);
      assert Next(hashOf, rs[n], c, rs[n + 1]);
      hide Consistent, Indexes, Admitted;
      NextConsistent(hashOf, rs[n], c, rs[n + 1]);
      if !c.Replace? {
        ChangeSameUsers(hashOf, rs[n], c, rs[n + 1]);
        RevokedIndexes(hashOf, Current(hashOf, cs[..n]), rs[n], rs[n + 1]);
      }
    }
  }

  lemma {:induction false} RunConsistent<E>(hashOf: Text -> Hash, rs: seq<Registry<E>>, cs: seq<Change<E>>, t: nat)
    requires IsRun(hashOf, rs, cs) && Consistent(rs[0]) && t <= |cs|
    ensures Consistent(rs[t])
  {
    hide Consistent, Next;
    if t > 0 {
      RunConsistent(hashOf, rs, cs, t - 1);
      NextConsistent(hashOf, rs[t - 1], cs[t - 1], rs[t]);
    }
  }

  // ---- A session's validity ----

  /** Some replacement in the changes `start`..`end` did not admit the user. */
  ghost predicate Dropped<E>(hashOf: Text -> Hash, cs: seq<Change<E>>, email: Text, start: nat, end: nat)
    requires start <= end <= |cs|
    decreases end
  {
    start < end && (Dropped(hashOf, cs, email, start, end - 1) ||
                  (cs[end - 1].Replace? && email !in Admitted(hashOf, cs[end - 1].specs)))
  }

  /** The user's password hash after the changes `start`..`end`, starting from `hash`. */
  ghost function HashNow<E>(hashOf: Text -> Hash, cs: seq<Change<E>>, email: Text, hash: Hash, start: nat, end: nat): Hash
    requires start <= end <= |cs|
    decreases end
  {
    if start == end then hash
    else if cs[end - 1].Replace? && email in Admitted(hashOf, cs[end - 1].specs) then
      hashOf(Admitted(hashOf, cs[end - 1].specs)[email].password)
    else HashNow(hashOf, cs, email, hash, start, end - 1)
  }

  /** How many replacements in the changes `snap`..`end` gave the user another password hash, where
      `hash` was its hash at `start`. */
  ghost function Rekeys<E>(hashOf: Text -> Hash, cs: seq<Change<E>>, email: Text, hash: Hash, start: nat, snap: nat, end: nat): nat
    requires start <= snap <= end <= |cs|
    decreases end
  {
    if snap == end then 0
    else
      Rekeys(hashOf, cs, email, hash, start, snap, end - 1) +
      if HashNow(hashOf, cs, email, hash, start, end) != HashNow(hashOf, cs, email, hash, start, end - 1) then 1 else 0
  }

  /** The user still has the entry `x`, found under `hash`. */
  ghost predicate Live<E>(r: Registry<E>, email: Text, hash: Hash, x: E)
  {
    x in r.entries && email in r.byEmail && r.byEmail[email] == x && hash in r.byHash && r.byHash[hash] == x
  }

  /** A replacement that admits the user keeps its entry, under the new hash, with the generation
      raised exactly when the hash changed. */
  lemma ReplaceLive<E>(hashOf: Text -> Hash, r: Registry<E>, specs: seq<UserSpec>, r': Registry<E>, email: Text, hash: Hash, x: E)
    requires Consistent(r) && Replaced(hashOf, r, specs, r') && Live(r, email, hash, x) && email in Admitted(hashOf, specs)
    ensures var hash' := hashOf(Admitted(hashOf, specs)[email].password);
            && Live(r', email, hash', x)
            && r'.entries[x].generation == (r.entries[x].generation + if hash' != hash then 1 else 0) % U64_MODULUS
  {
    hide Admitted, Replaced, Consistent;
    var hash' := hashOf(Admitted(hashOf, specs)[email].password);
    AdmittedEmail(hashOf, specs, email);
    ReplacedUser(hashOf, r, specs, r', email);
    if hash' in r.byHash && r.byHash[hash'] == x {
      OneHash(r, hash, hash');
    }
  }

  lemma OneHash<E>(r: Registry<E>, h1: Hash, h2: Hash)
    requires Consistent(r) && h1 in r.byHash && h2 in r.byHash && r.byHash[h1] == r.byHash[h2]
    ensures h1 == h2
  {
  }

  lemma ReplacedUser<E>(hashOf: Text -> Hash, r: Registry<E>, specs: seq<UserSpec>, r': Registry<E>, email: Text)
    requires Replaced(hashOf, r, specs, r') && email in Admitted(hashOf, specs)
    ensures var spec := Admitted(hashOf, specs)[email];
            var hash := hashOf(spec.password);
            && email in r'.byEmail && hash in r'.byHash && r'.byHash[hash] == r'.byEmail[email]
            && r'.byEmail[email] in r'.entries && r'.entries[r'.byEmail[email]] == Renewed(r, spec, hash)
            && (email in r.byEmail ==> r'.byEmail[email] == r.byEmail[email])
  {
    hide Admitted, Renewed, NoStrays;
  }

  lemma ReplaceDrops<E>(hashOf: Text -> Hash, r: Registry<E>, specs: seq<UserSpec>, r': Registry<E>, email: Text, hash: Hash, x: E)
    requires Consistent(r) && Replaced(hashOf, r, specs, r') && Live(r, email, hash, x) && email !in Admitted(hashOf, specs)
    ensures x in r'.entries && r'.entries[x].revoked
  {
    hide Admitted, Renewed;
    assert Serves(r, x) && !Stays(r, Admitted(hashOf, specs), x);
  }

  /** Revocation is for good. */
  lemma RevokedStays<E>(hashOf: Text -> Hash, r: Registry<E>, c: Change<E>, r': Registry<E>, x: E)
    requires Consistent(r) && Next(hashOf, r, c, r') && x in r.entries && r.entries[x].revoked
    ensures x in r'.entries && r'.entries[x].revoked
  {
    hide Admitted, Renewed;
    assert !Serves(r, x);
  }

  /** Until a replacement drops the user, its entry is live under its current hash; afterwards the
      entry is revoked. */
  lemma {:induction false} Standing<E>(hashOf: Text -> Hash, rs: seq<Registry<E>>, cs: seq<Change<E>>,
                                       email: Text, hash: Hash, x: E, start: nat, end: nat)
    requires IsRun(hashOf, rs, cs) && Consistent(rs[0]) && start <= end <= |cs| && Live(rs[start], email, hash, x)
    ensures x in rs[end].entries
    ensures Dropped(hashOf, cs, email, start, end) ==> rs[end].entries[x].revoked
    ensures !Dropped(hashOf, cs, email, start, end) ==> Live(rs[end], email, HashNow(hashOf, cs, email, hash, start, end), x)
    decreases end
  {
    hide Admitted, Consistent, Replaced;
    if start < end {
      var r, c, r' := rs[end - 1], cs[end - 1], rs[end];
      Standing(hashOf, rs, cs, email, hash, x, start, end - 1);
      RunConsistent(hashOf, rs, cs, end - 1);
      assert Next(hashOf, r, c, r');
      if Dropped(hashOf, cs, email, start, end - 1) {
        RevokedStays(hashOf, r, c, r', x);
      } else if !c.Replace? {
        ChangeSameUsers(hashOf, r, c, r');
      } else if email in Admitted(hashOf, c.specs) {
        ReplaceLive(hashOf, r, c.specs, r', email, HashNow(hashOf, cs, email, hash, start, end - 1), x);
      } else {
        ReplaceDrops(hashOf, r, c.specs, r', email, HashNow(hashOf, cs, email, hash, start, end - 1), x);
      }
    }
  }

  lemma HashStep<E>(hashOf: Text -> Hash, cs: seq<Change<E>>, email: Text, hash: Hash, start: nat, end: nat)
    requires start < end <= |cs|
    ensures HashNow(hashOf, cs, email, hash, start, end)
         == if cs[end - 1].Replace? && email in Admitted(hashOf, cs[end - 1].specs)
            then hashOf(Admitted(hashOf, cs[end - 1].specs)[email].password)
            else HashNow(hashOf, cs, email, hash, start, end - 1)
  {
  }

  /** One change raises the generation exactly when it gives the user another hash. */
  lemma GenerationStep<E>(hashOf: Text -> Hash, r: Registry<E>, c: Change<E>, r': Registry<E>, email: Text, hash: Hash,
                          hash': Hash, x: E)
    requires Consistent(r) && Next(hashOf, r, c, r') && Live(r, email, hash, x)
    requires c.Replace? ==> email in Admitted(hashOf, c.specs)
    requires hash' == if c.Replace? then hashOf(Admitted(hashOf, c.specs)[email].password) else hash
    ensures x in r'.entries
    ensures r'.entries[x].generation == (r.entries[x].generation + if hash' != hash then 1 else 0) % U64_MODULUS
  {
    hide Consistent, Replaced, Admitted;
    if c.Replace? {
      ReplaceLive(hashOf, r, c.specs, r', email, hash, x);
    } else {
      ChangeSameUsers(hashOf, r, c, r');
    }
  }

  /** While the user is not dropped, its generation counts the changes of its hash. */
  lemma {:induction false} GenerationCounts<E>(hashOf: Text -> Hash, rs: seq<Registry<E>>, cs: seq<Change<E>>,
                                               email: Text, hash: Hash, x: E, start: nat, snap: nat, end: nat)
    requires IsRun(hashOf, rs, cs) && Consistent(rs[0]) && start <= snap <= end <= |cs| && Live(rs[start], email, hash, x)
    requires !Dropped(hashOf, cs, email, start, end)
    ensures x in rs[snap].entries && x in rs[end].entries
    ensures rs[end].entries[x].generation
         == (rs[snap].entries[x].generation + Rekeys(hashOf, cs, email, hash, start, snap, end)) % U64_MODULUS
    decreases end
  {
    hide Admitted, Consistent, Next, Loaded, HashNow, Live;
    Standing(hashOf, rs, cs, email, hash, x, start, end);
    if snap < end {
      var before, after := HashNow(hashOf, cs, email, hash, start, end - 1), HashNow(hashOf, cs, email, hash, start, end);
      HashStep(hashOf, cs, email, hash, start, end);
      GenerationCounts(hashOf, rs, cs, email, hash, x, start, snap, end - 1);
      Standing(hashOf, rs, cs, email, hash, x, start, end - 1);
      RunConsistent(hashOf, rs, cs, end - 1);
      GenerationStep(hashOf, rs[end - 1], cs[end - 1], rs[end], email, before, after, x);
      ModAdd(rs[snap].entries[x].generation + Rekeys(hashOf, cs, email, hash, start, snap, end - 1),
             if after != before then 1 else 0);
    }
  }

  lemma ModAdd(a: nat, d: nat)
    ensures (a % U64_MODULUS + d) % U64_MODULUS == (a + d) % U64_MODULUS
  {
  }

  /** A guard whose lookup found `x` under `hash` at `start` and whose snapshot was taken at `snap`
      reports Revoked at `end` exactly when some replacement since the lookup did not admit its user,
      or its password hash changed since the snapshot (a number of times that is not a multiple of
      2^64, the generation being a 64-bit counter). What other users' specs say plays no part. */
  lemma GuardRevokedExactly<E>(hashOf: Text -> Hash, rs: seq<Registry<E>>, cs: seq<Change<E>>,
                               email: Text, hash: Hash, x: E, start: nat, snap: nat, end: nat, now: int)
    requires IsRun(hashOf, rs, cs) && Consistent(rs[0]) && start <= snap <= end <= |cs| && Live(rs[start], email, hash, x)
    ensures x in rs[snap].entries && x in rs[end].entries
    ensures GuardDenial(rs[end].entries[x], rs[snap].entries[x].generation, now) == Some(Revoked)
       <==> Dropped(hashOf, cs, email, start, end) ||
            Rekeys(hashOf, cs, email, hash, start, snap, end) % U64_MODULUS != 0
  {
    hide Consistent, Next, GuardDenial, Dropped, HashNow, Rekeys;
    Standing(hashOf, rs, cs, email, hash, x, start, end);
    Standing(hashOf, rs, cs, email, hash, x, start, snap);
    DenialRevoked(rs[end].entries[x], rs[snap].entries[x].generation, now);
    if !Dropped(hashOf, cs, email, start, end) {
      GenerationCounts(hashOf, rs, cs, email, hash, x, start, snap, end);
      RunConsistent(hashOf, rs, cs, end);
      LiveNotRevoked(rs[end], email, HashNow(hashOf, cs, email, hash, start, end), x);
      AddModulus(rs[snap].entries[x].generation, Rekeys(hashOf, cs, email, hash, start, snap, end));
    }
  }

  /** A guard under a password that is no longer the user's: it escapes revocation exactly when its
      user was never dropped and no re-keying, up to multiples of 2^64, came after its snapshot. */
  lemma SupersededGuard<E>(hashOf: Text -> Hash, rs: seq<Registry<E>>, cs: seq<Change<E>>,
                           email: Text, hash: Hash, x: E, start: nat, snap: nat, end: nat, now: int)
    requires IsRun(hashOf, rs, cs) && Consistent(rs[0]) && start <= snap <= end <= |cs| && Live(rs[start], email, hash, x)
    requires HashNow(hashOf, cs, email, hash, start, end) != hash
    ensures x in rs[snap].entries && x in rs[end].entries
    ensures GuardDenial(rs[end].entries[x], rs[snap].entries[x].generation, now) != Some(Revoked)
       <==> !Dropped(hashOf, cs, email, start, end) &&
            Rekeys(hashOf, cs, email, hash, start, snap, end) % U64_MODULUS == 0
    ensures Rekeys(hashOf, cs, email, hash, start, snap, end) == 0 ==>
              HashNow(hashOf, cs, email, hash, start, snap) == HashNow(hashOf, cs, email, hash, start, end) != hash
  {
    hide IsRun, Consistent, GuardDenial, Dropped, HashNow;
    GuardRevokedExactly(hashOf, rs, cs, email, hash, x, start, snap, end, now);
    NoRekeyNoChange(hashOf, cs, email, hash, start, snap, end);
  }

  lemma {:induction false} NoRekeyNoChange<E>(hashOf: Text -> Hash, cs: seq<Change<E>>, email: Text, hash: Hash,
                                              start: nat, snap: nat, end: nat)
    requires start <= snap <= end <= |cs|
    ensures Rekeys(hashOf, cs, email, hash, start, snap, end) == 0 ==>
              HashNow(hashOf, cs, email, hash, start, snap) == HashNow(hashOf, cs, email, hash, start, end)
    decreases end
  {
    hide HashNow;
    if snap < end {
      NoRekeyNoChange(hashOf, cs, email, hash, start, snap, end - 1);
    }
  }

  lemma DenialRevoked(entry: Entry, generation: U64, now: int)
    ensures GuardDenial(entry, generation, now) == Some(Revoked) <==> entry.generation != generation || entry.revoked
  {
  }

  lemma LiveNotRevoked<E>(r: Registry<E>, email: Text, hash: Hash, x: E)
    requires Consistent(r) && Live(r, email, hash, x)
    ensures !r.entries[x].revoked
  {
    assert Serves(r, x);
  }

  lemma AddModulus(a: U64, k: nat)
    ensures (a + k) % U64_MODULUS == a <==> k % U64_MODULUS == 0
  {
  }

  // ---- Accounting ----

  /** The counters of an entry. */
  datatype Account = Account(up: nat, down: nat, base: nat, connections: int)

  function AccountOf(entry: Entry): Account
  {
    Account(entry.up, entry.down, entry.quotaBase, entry.connections)
  }

  /** A replacement touches no counter of any entry. */
  lemma ReplaceKeepsAccounts<E>(hashOf: Text -> Hash, r: Registry<E>, specs: seq<UserSpec>, r': Registry<E>, x: E)
    requires Consistent(r) && Replaced(hashOf, r, specs, r') && x in r.entries
    ensures x in r'.entries && AccountOf(r'.entries[x]) == AccountOf(r.entries[x])
  {
    hide Admitted;
    var admitted := Admitted(hashOf, specs);
    if Stays(r, admitted, x) {
      var email := r.entries[x].email;
      AdmittedEmail(hashOf, specs, email);
      ReplacedUser(hashOf, r, specs, r', email);
    }
  }

  /** Bytes recorded on `x` by the changes `start`..`end`, up and down. */
  function Recorded<E(==)>(cs: seq<Change<E>>, x: E, start: nat, end: nat): (nat, nat)
    requires start <= end <= |cs|
    decreases end
  {
    if start == end then (0, 0)
    else
      var (up, down) := Recorded(cs, x, start, end - 1);
      match cs[end - 1]
      case RecordUp(y, bytes) => if x == y then (up + bytes, down) else (up, down)
      case RecordDown(y, bytes) => if x == y then (up, down + bytes) else (up, down)
      case _ => (up, down)
  }

  lemma {:induction false} RecordedSplit<E>(cs: seq<Change<E>>, x: E, start: nat, mid: nat, end: nat)
    requires start <= mid <= end <= |cs|
    ensures Recorded(cs, x, start, end).0 == Recorded(cs, x, start, mid).0 + Recorded(cs, x, mid, end).0
    ensures Recorded(cs, x, start, end).1 == Recorded(cs, x, start, mid).1 + Recorded(cs, x, mid, end).1
    decreases end
  {
    if mid < end {
      RecordedSplit(cs, x, start, mid, end - 1);
    }
  }

  /** Guards taken minus guards dropped on `x`. */
  function Guards<E(==)>(cs: seq<Change<E>>, x: E, end: nat): int
    requires end <= |cs|
  {
    if end == 0 then 0
    else
      Guards(cs, x, end - 1) +
      match cs[end - 1]
      case Connect(y) => if x == y then 1 else 0
      case Disconnect(y) => if x == y then -1 else 0
      case _ => 0
  }

  /** The reset of `x` whose store came last, as the moment of that store. */
  function LastStore<E(==)>(cs: seq<Change<E>>, x: E, end: nat): (t: Option<nat>)
    requires end <= |cs|
    ensures t.Some? ==> t.value < end && cs[t.value].StoreBase? && cs[t.value].x == x
  {
    if end == 0 then None
    else if cs[end - 1].StoreBase? && cs[end - 1].x == x then Some(end - 1)
    else LastStore(cs, x, end - 1)
  }

  function BaseOf<E(==)>(cs: seq<Change<E>>, x: E, end: nat): U64
    requires end <= |cs|
  {
    match LastStore(cs, x, end)
    case None => 0
    case Some(t) => cs[t].base
  }

  /** What the changes so far say about the counters of `x`. */
  function Expected<E(==)>(cs: seq<Change<E>>, x: E, end: nat): Account
    requires end <= |cs|
  {
    Account(Recorded(cs, x, 0, end).0, Recorded(cs, x, 0, end).1, BaseOf(cs, x, end), Guards(cs, x, end))
  }

  /** A new entry starts from nothing. */
  lemma BornEmpty<E>(hashOf: Text -> Hash, r: Registry<E>, c: Change<E>, r': Registry<E>, x: E)
    requires Consistent(r) && Next(hashOf, r, c, r') && x !in r.entries && x in r'.entries
    ensures c.Replace? && AccountOf(r'.entries[x]) == Account(0, 0, 0, 0)
  {
    hide Admitted;
    if c.Replace? {
      assert Serves(r', x);
      var email := r'.entries[x].email;
      AdmittedEmail(hashOf, c.specs, email);
      ReplacedUser(hashOf, r, c.specs, r', email);
    }
  }

  /** Changes on an entry that does not exist yet there are none. */
  lemma {:induction false} NotYet<E>(hashOf: Text -> Hash, rs: seq<Registry<E>>, cs: seq<Change<E>>, x: E, end: nat)
    requires IsRun(hashOf, rs, cs) && Consistent(rs[0]) && end <= |cs| && x !in rs[end].entries
    ensures Expected(cs, x, end) == Account(0, 0, 0, 0)
  {
    hide Consistent, Replaced, Loaded;
    if end > 0 {
      assert Next(hashOf, rs[end - 1], cs[end - 1], rs[end]);
      RunConsistent(hashOf, rs, cs, end - 1);
      EntriesStay(hashOf, rs[end - 1], cs[end - 1], rs[end], x);
      NotYet(hashOf, rs, cs, x, end - 1);
    }
  }

  lemma EntriesStay<E>(hashOf: Text -> Hash, r: Registry<E>, c: Change<E>, r': Registry<E>, x: E)
    requires Next(hashOf, r, c, r')
    ensures x in r.entries ==> x in r'.entries
  {
    hide Admitted, Indexes, AllRenewed;
  }

  lemma ExpectedStep<E>(cs: seq<Change<E>>, x: E, b: Entry, b': Entry, end: nat)
    requires 0 < end <= |cs| && AccountOf(b) == Expected(cs, x, end - 1)
    requires var c := cs[end - 1];
             if c.Replace? || c.x != x then AccountOf(b') == AccountOf(b) else b' == Changed(b, c)
    requires Recorded(cs, x, 0, end).0 + Recorded(cs, x, 0, end).1 < U64_MODULUS
    ensures AccountOf(b') == Expected(cs, x, end)
  {
    if cs[end - 1].RecordUp? && cs[end - 1].x == x {
      NoWrap(b.up + cs[end - 1].bytes);
    } else if cs[end - 1].RecordDown? && cs[end - 1].x == x {
      NoWrap(b.down + cs[end - 1].bytes);
    }
  }

  lemma NoWrap(n: nat)
    requires n < U64_MODULUS
    ensures n % U64_MODULUS == n
  {
  }

  /** The counters of an entry are exactly what the run has recorded on it. */
  lemma {:induction false} Counters<E>(hashOf: Text -> Hash, rs: seq<Registry<E>>, cs: seq<Change<E>>, x: E, end: nat)
    requires IsRun(hashOf, rs, cs) && rs[0] == Registry(map[], map[], map[]) && end <= |cs| && x in rs[end].entries
    requires Recorded(cs, x, 0, end).0 + Recorded(cs, x, 0, end).1 < U64_MODULUS
    ensures AccountOf(rs[end].entries[x]) == Expected(cs, x, end)
  {
    hide Replaced, Loaded, Expected;
    if end > 0 {
      var r, c, r' := rs[end - 1], cs[end - 1], rs[end];
      assert Next(hashOf, r, c, r');
      RunConsistent(hashOf, rs, cs, end - 1);
      hide Consistent;
      if x in r.entries {
        if c.Replace? {
          ReplaceKeepsAccounts(hashOf, r, c.specs, r', x);
        }
        RecordedSplit(cs, x, 0, end - 1, end);
        Counters(hashOf, rs, cs, x, end - 1);
        ExpectedStep(cs, x, r.entries[x], r'.entries[x], end);
      } else {
        BornEmpty(hashOf, r, c, r', x);
        NotYet(hashOf, rs, cs, x, end - 1);
        ReplaceExpects(cs, x, end);
      }
    }
  }

  lemma ReplaceExpects<E>(cs: seq<Change<E>>, x: E, end: nat)
    requires 0 < end <= |cs| && cs[end - 1].Replace?
    ensures Expected(cs, x, end) == Expected(cs, x, end - 1)
  {
  }

  /** Bytes recorded on `x` since the loads of the reset whose store came last, or ever. */
  ghost function SinceReset<E>(hashOf: Text -> Hash, rs: seq<Registry<E>>, cs: seq<Change<E>>, x: E, end: nat): nat
    requires IsRun(hashOf, rs, cs) && end <= |cs|
  {
    match LastStore(cs, x, end)
    case None => Recorded(cs, x, 0, end).0 + Recorded(cs, x, 0, end).1
    case Some(t) =>
      assert Loaded(rs, cs[t], t);
      Recorded(cs, x, cs[t].upAt, end).0 + Recorded(cs, x, cs[t].downAt, end).1
  }

  lemma StoredBase<E>(hashOf: Text -> Hash, rs: seq<Registry<E>>, cs: seq<Change<E>>, x: E, end: nat, t: nat)
    requires IsRun(hashOf, rs, cs) && rs[0] == Registry(map[], map[], map[]) && t < end <= |cs|
    requires cs[t].StoreBase? && cs[t].x == x && cs[t].upAt <= cs[t].downAt <= t
    requires Recorded(cs, x, 0, end).0 + Recorded(cs, x, 0, end).1 < U64_MODULUS
    ensures cs[t].base == Recorded(cs, x, 0, cs[t].upAt).0 + Recorded(cs, x, 0, cs[t].downAt).1
  {
    hide Next;
    assert Loaded(rs, cs[t], t);
    RecordedSplit(cs, x, 0, cs[t].upAt, end);
    RecordedSplit(cs, x, 0, cs[t].downAt, end);
    Counters(hashOf, rs, cs, x, cs[t].upAt);
    Counters(hashOf, rs, cs, x, cs[t].downAt);
  }

  /** Over every run from an empty registry, with any number of resets racing, while an entry's total
      stays below 2^64: its counters are the bytes recorded, its connection count is the number of
      live guards, its quota base never exceeds its total, and the quota used is what was recorded
      since the loads of the reset whose store came last. */
  lemma AccountsBalance<E>(hashOf: Text -> Hash, rs: seq<Registry<E>>, cs: seq<Change<E>>, x: E, end: nat)
    requires IsRun(hashOf, rs, cs) && rs[0] == Registry(map[], map[], map[]) && end <= |cs| && x in rs[end].entries
    requires Recorded(cs, x, 0, end).0 + Recorded(cs, x, 0, end).1 < U64_MODULUS
    ensures var entry := rs[end].entries[x];
            && entry.up == Recorded(cs, x, 0, end).0 && entry.down == Recorded(cs, x, 0, end).1
            && entry.connections == Guards(cs, x, end)
            && entry.quotaBase <= entry.Total()
            && entry.QuotaUsed() == SinceReset(hashOf, rs, cs, x, end)
  {
    hide Next, Recorded, Guards;
    Counters(hashOf, rs, cs, x, end);
    match LastStore(cs, x, end)
    case None =>
    case Some(t) =>
      assert Loaded(rs, cs[t], t);
      StoredBase(hashOf, rs, cs, x, end, t);
      RecordedSplit(cs, x, 0, cs[t].upAt, end);
      RecordedSplit(cs, x, 0, cs[t].downAt, end);
  }

  /** Counters never decrease. */
  lemma CountersNeverFall<E>(hashOf: Text -> Hash, rs: seq<Registry<E>>, cs: seq<Change<E>>, x: E, start: nat, end: nat)
    requires IsRun(hashOf, rs, cs) && rs[0] == Registry(map[], map[], map[]) && start <= end <= |cs|
    requires x in rs[start].entries && x in rs[end].entries
    requires Recorded(cs, x, 0, end).0 + Recorded(cs, x, 0, end).1 < U64_MODULUS
    ensures rs[start].entries[x].up <= rs[end].entries[x].up && rs[start].entries[x].down <= rs[end].entries[x].down
  {
    hide IsRun, Recorded;
    RecordedSplit(cs, x, 0, start, end);
    Counters(hashOf, rs, cs, x, start);
    Counters(hashOf, rs, cs, x, end);
  }

  /** When the quota used is what was recorded since the last reset was stored: exactly if nothing was
      recorded between that reset's loads and its store. */
  lemma CleanResetExactly<E>(hashOf: Text -> Hash, rs: seq<Registry<E>>, cs: seq<Change<E>>, x: E, end: nat)
    requires IsRun(hashOf, rs, cs) && rs[0] == Registry(map[], map[], map[]) && end <= |cs| && x in rs[end].entries
    requires Recorded(cs, x, 0, end).0 + Recorded(cs, x, 0, end).1 < U64_MODULUS && LastStore(cs, x, end).Some?
    ensures var t := LastStore(cs, x, end).value;
            && cs[t].upAt <= cs[t].downAt <= t
            && (rs[end].entries[x].QuotaUsed() == Recorded(cs, x, t, end).0 + Recorded(cs, x, t, end).1
                <==> Recorded(cs, x, cs[t].upAt, t).0 == 0 && Recorded(cs, x, cs[t].downAt, t).1 == 0)
  {
    hide Next, Recorded;
    var t := LastStore(cs, x, end).value;
    assert Loaded(rs, cs[t], t);
    AccountsBalance(hashOf, rs, cs, x, end);
    RecordedSplit(cs, x, cs[t].upAt, t, end);
    RecordedSplit(cs, x, cs[t].downAt, t, end);
  }

  // ---- Limits ----

  lemma LimitsOfChange<E>(hashOf: Text -> Hash, r: Registry<E>, c: Change<E>, r': Registry<E>, x: E)
    requires Next(hashOf, r, c, r') && !c.Replace? && x in r.entries
    ensures x in r'.entries
    ensures r'.entries[x].quotaBytes == r.entries[x].quotaBytes && r'.entries[x].expiresUnix == r.entries[x].expiresUnix
  {
  }

  lemma RenewedLimits<E>(r: Registry<E>, spec: UserSpec, hash: Hash)
    ensures Renewed(r, spec, hash).quotaBytes == spec.quotaBytes && Renewed(r, spec, hash).expiresUnix == spec.expiresUnix
  {
  }

  lemma SameIndexed<E>(r: Registry<E>, email: Text)
    requires Consistent(r) && email in r.byEmail
    ensures r.byEmail[email] in r.entries
  {
  }

  /** The limits in force for a user are those of the last replacement. */
  lemma {:induction false} LimitsOfUser<E>(hashOf: Text -> Hash, rs: seq<Registry<E>>, cs: seq<Change<E>>,
                                           email: Text, end: nat)
    requires IsRun(hashOf, rs, cs) && rs[0] == Registry(map[], map[], map[]) && end <= |cs| && email in rs[end].byEmail
    ensures email in Current(hashOf, cs[..end]) && rs[end].byEmail[email] in rs[end].entries
    ensures var spec, entry := Current(hashOf, cs[..end])[email], rs[end].entries[rs[end].byEmail[email]];
            entry.quotaBytes == spec.quotaBytes && entry.expiresUnix == spec.expiresUnix
  {
    hide Consistent, Replaced, Indexes, Admitted, Loaded;
    var r, c, r' := rs[end - 1], cs[end - 1], rs[end];
    assert Next(hashOf, r, c, r');
    assert cs[..end][..end - 1] == cs[..end - 1];
    if c.Replace? {
      ReplacedKeys(hashOf, r, c.specs, r');
      var spec := Admitted(hashOf, c.specs)[email];
      ReplacedUser(hashOf, r, c.specs, r', email);
      RenewedLimits(r, spec, hashOf(spec.password));
    } else {
      LimitsOfUser(hashOf, rs, cs, email, end - 1);
      LimitsOfChange(hashOf, r, c, r', r.byEmail[email]);
    }
  }

  lemma ReplacedKeys<E>(hashOf: Text -> Hash, r: Registry<E>, specs: seq<UserSpec>, r': Registry<E>)
    requires Replaced(hashOf, r, specs, r')
    ensures r'.byEmail.Keys == Admitted(hashOf, specs).Keys
  {
    hide Admitted, Renewed, NoStrays;
  }

  /** The user's time is up. */
  predicate TimeUp(spec: UserSpec, now: int) { 0 < spec.expiresUnix <= now }

  /** The user has a quota, and has used it up. */
  predicate UsedUp(spec: UserSpec, used: nat) { 0 < spec.quotaBytes <= used }

  lemma DenialCases(entry: Entry, spec: UserSpec, generation: U64, now: int)
    requires entry.quotaBytes == spec.quotaBytes && entry.expiresUnix == spec.expiresUnix
    ensures var denial := GuardDenial(entry, generation, now);
            && (denial == Some(Expired) <==> denial != Some(Revoked) && TimeUp(spec, now))
            && (denial == Some(QuotaExceeded) <==>
                  denial != Some(Revoked) && !TimeUp(spec, now) && UsedUp(spec, entry.QuotaUsed()))
  {
  }

  /** What a guard reports, from the changes alone. With the lookup at `start` and the snapshot at
      `snap`, at `end` it is Revoked exactly as `GuardRevokedExactly` says; otherwise the spec of the
      last replacement decides: Expired exactly when its time is up, else QuotaExceeded exactly when
      it has a quota and the bytes recorded since the last reset's loads reach it. */
  lemma GuardDeniedExactly<E>(hashOf: Text -> Hash, rs: seq<Registry<E>>, cs: seq<Change<E>>,
                              email: Text, hash: Hash, x: E, start: nat, snap: nat, end: nat, now: int)
    requires IsRun(hashOf, rs, cs) && rs[0] == Registry(map[], map[], map[])
    requires start <= snap <= end <= |cs| && Live(rs[start], email, hash, x)
    requires Recorded(cs, x, 0, end).0 + Recorded(cs, x, 0, end).1 < U64_MODULUS
    ensures x in rs[snap].entries && x in rs[end].entries
    ensures var denial := GuardDenial(rs[end].entries[x], rs[snap].entries[x].generation, now);
            var revoked := Dropped(hashOf, cs, email, start, end) ||
                           Rekeys(hashOf, cs, email, hash, start, snap, end) % U64_MODULUS != 0;
            && (denial == Some(Revoked) <==> revoked)
            && (!revoked ==> email in Current(hashOf, cs[..end]))
            && (denial == Some(Expired) <==> !revoked && TimeUp(Current(hashOf, cs[..end])[email], now))
            && (denial == Some(QuotaExceeded) <==>
                  && !revoked && !TimeUp(Current(hashOf, cs[..end])[email], now)
                  && UsedUp(Current(hashOf, cs[..end])[email], SinceReset(hashOf, rs, cs, x, end)))
  {
    hide Consistent, Next, GuardDenial, Dropped, HashNow, Rekeys, Recorded, Current, Loaded;
    EmptyConsistent(rs[0]);
    GuardRevokedExactly(hashOf, rs, cs, email, hash, x, start, snap, end, now);
    Standing(hashOf, rs, cs, email, hash, x, start, end);
    if !Dropped(hashOf, cs, email, start, end) {
      LimitsOfUser(hashOf, rs, cs, email, end);
      AccountsBalance(hashOf, rs, cs, x, end);
      DenialCases(rs[end].entries[x], Current(hashOf, cs[..end])[email], rs[snap].entries[x].generation, now);
    }
  }

  lemma EmptyConsistent<E>(r: Registry<E>)
    requires r == Registry(map[], map[], map[])
    ensures Consistent(r)
  {
  }

  /** Whom a password lets in: the hash authenticates exactly when it has 32 bytes, the last
      replacement admits a user of that hash, the user's time is not up, and its quota is not used up
      by the bytes recorded since the last reset's loads. */
  lemma LetsInExactly<E>(hashOf: Text -> Hash, rs: seq<Registry<E>>, cs: seq<Change<E>>, email: Text, end: nat, now: int)
    requires IsRun(hashOf, rs, cs) && rs[0] == Registry(map[], map[], map[]) && end <= |cs| && email in Current(hashOf, cs[..end])
    requires email in rs[end].byEmail ==>
               var recorded := Recorded(cs, rs[end].byEmail[email], 0, end);
               recorded.0 + recorded.1 < U64_MODULUS
    ensures email in rs[end].byEmail
    ensures var spec, x := Current(hashOf, cs[..end])[email], rs[end].byEmail[email];
            LetsIn(rs[end], hashOf(spec.password), now)
            <==> |hashOf(spec.password)| == HASH_SIZE && !TimeUp(spec, now) &&
                 !UsedUp(spec, SinceReset(hashOf, rs, cs, x, end))
  {
    hide Consistent, Next, Recorded, Current, Loaded;
    IndexedUser(hashOf, rs, cs, email, end);
    var spec, x := Current(hashOf, cs[..end])[email], rs[end].byEmail[email];
    LimitsOfUser(hashOf, rs, cs, email, end);
    AccountsBalance(hashOf, rs, cs, x, end);
    LiveNotRevoked(rs[end], email, hashOf(spec.password), x);
    DenialCases(rs[end].entries[x], spec, rs[end].entries[x].generation, now);
  }

  /** No other hash is let in. */
  lemma NobodyElse<E>(hashOf: Text -> Hash, rs: seq<Registry<E>>, cs: seq<Change<E>>, hash: Hash, end: nat, now: int)
    requires IsRun(hashOf, rs, cs) && rs[0] == Registry(map[], map[], map[]) && end <= |cs| && LetsIn(rs[end], hash, now)
    ensures exists email :: email in Current(hashOf, cs[..end]) && hashOf(Current(hashOf, cs[..end])[email].password) == hash
  {
    hide Consistent, Next, Current, Loaded;
    assert IsRun(hashOf, rs[..end + 1], cs[..end]) by {
      RunPrefix(hashOf, rs, cs, end);
    }
    IndexesRefineMap(hashOf, rs[..end + 1], cs[..end]);
  }

  lemma RunPrefix<E>(hashOf: Text -> Hash, rs: seq<Registry<E>>, cs: seq<Change<E>>, end: nat)
    requires IsRun(hashOf, rs, cs) && end <= |cs|
    ensures IsRun(hashOf, rs[..end + 1], cs[..end])
  {
    hide Next;
  }

  lemma IndexedUser<E>(hashOf: Text -> Hash, rs: seq<Registry<E>>, cs: seq<Change<E>>, email: Text, end: nat)
    requires IsRun(hashOf, rs, cs) && rs[0] == Registry(map[], map[], map[]) && end <= |cs| && email in Current(hashOf, cs[..end])
    ensures Consistent(rs[end]) && email in rs[end].byEmail
    ensures Live(rs[end], email, hashOf(Current(hashOf, cs[..end])[email].password), rs[end].byEmail[email])
  {
    hide Next, Current, Loaded;
    RunPrefix(hashOf, rs, cs, end);
    IndexesRefineMap(hashOf, rs[..end + 1], cs[..end]);
    SameIndexed(rs[end], email);
  }

  // ---- Two runs ----

  /** The registry of one user, whose entry is `0`. */
  function OneUser(hashOf: Text -> Hash, spec: UserSpec, entry: Entry): Registry<nat>
  {
    Registry(map[spec.email := 0], map[hashOf(spec.password) := 0], map[0 := entry])
  }

  lemma OneAdmitted(hashOf: Text -> Hash, spec: UserSpec)
    requires Usable(spec)
    ensures Admitted(hashOf, [spec]) == map[spec.email := spec]
  {
    assert [spec][..0] == [];
  }

  lemma FirstUser(hashOf: Text -> Hash, spec: UserSpec)
    requires Usable(spec)
    ensures Next(hashOf, Registry(map[], map[], map[]), Replace([spec]), OneUser(hashOf, spec, NewEntry(spec)))
  {
    OneAdmitted(hashOf, spec);
    hide Admitted;
  }

  /** Two resets race: both store after `n` bytes were recorded, but the one that loaded before stores
      last, and the bytes count against the quota again. */
  lemma RacingResets(hashOf: Text -> Hash, spec: UserSpec, n: U64) returns (rs: seq<Registry<nat>>, cs: seq<Change<nat>>)
    requires Usable(spec) && n > 0
    ensures |cs| == 4 && IsRun(hashOf, rs, cs) && rs[0] == Registry(map[], map[], map[])
    ensures cs[1] == RecordUp(0, n) && cs[2].StoreBase? && cs[3].StoreBase?
    ensures 0 in rs[3].entries && rs[3].entries[0].QuotaUsed() == 0
    ensures 0 in rs[4].entries && rs[4].entries[0].QuotaUsed() == n && Recorded(cs, 0, 2, 4) == (0, 0)
  {
    hide Replaced, Admitted;
    var e := NewEntry(spec);
    var r0 := Registry(map[], map[], map[]);
    FirstUser(hashOf, spec);
    cs := [Replace([spec]), RecordUp(0, n), StoreBase(0, 2, 2, n), StoreBase(0, 1, 1, 0)];
    NoWrap(n);
    rs := [r0, OneUser(hashOf, spec, e), OneUser(hashOf, spec, e.(up := n)),
           OneUser(hashOf, spec, e.(up := n, quotaBase := n)), OneUser(hashOf, spec, e.(up := n))];
    assert rs[1].entries[0 := e.(up := n)] == rs[2].entries;
    assert rs[2].entries[0 := e.(up := n, quotaBase := n)] == rs[3].entries;
    assert rs[3].entries[0 := e.(up := n)] == rs[4].entries;
    forall t | 0 <= t < 4
      ensures Next(hashOf, rs[t], cs[t], rs[t + 1]) && Loaded(rs, cs[t], t)
    {
    }
  }

  /** A password change between a guard's lookup and its snapshot: the session of the old password
      lives on under the new one. */
  lemma RekeyedUnderTheGuard(hashOf: Text -> Hash, former: UserSpec, latter: UserSpec, now: int)
      returns (rs: seq<Registry<nat>>, cs: seq<Change<nat>>)
    requires Usable(former) && Usable(latter) && former.email == latter.email && hashOf(former.password) != hashOf(latter.password)
    requires latter.quotaBytes == 0 && latter.expiresUnix <= 0
    ensures |cs| == 2 && IsRun(hashOf, rs, cs) && rs[0] == Registry(map[], map[], map[])
    ensures Live(rs[1], former.email, hashOf(former.password), 0) && hashOf(former.password) !in rs[2].byHash
    ensures 0 in rs[2].entries && GuardDenial(rs[2].entries[0], rs[2].entries[0].generation, now) == None
  {
    hide Replaced, Admitted;
    FirstUser(hashOf, former);
    SecondPassword(hashOf, former, latter);
    var entry := BumpGeneration(ApplyLimits(NewEntry(former), latter));
    cs := [Replace([former]), Replace([latter])];
    rs := [Registry(map[], map[], map[]), OneUser(hashOf, former, NewEntry(former)), OneUser(hashOf, latter, entry)];
    forall t | 0 <= t < 2
      ensures Next(hashOf, rs[t], cs[t], rs[t + 1]) && Loaded(rs, cs[t], t)
    {
    }
  }

  lemma SecondPassword(hashOf: Text -> Hash, former: UserSpec, latter: UserSpec)
    requires Usable(former) && Usable(latter) && former.email == latter.email && hashOf(former.password) != hashOf(latter.password)
    ensures var entry := BumpGeneration(ApplyLimits(NewEntry(former), latter));
            Next(hashOf, OneUser(hashOf, former, NewEntry(former)), Replace([latter]), OneUser(hashOf, latter, entry))
  {
    OneAdmitted(hashOf, latter);
    hide Admitted;
  }
}
