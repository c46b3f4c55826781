/** Idempotency leases over whole traces of operations: cleaning up is invisible, successful claims of a key
    keep their distance, and the two key encodings answer alike. */
module Leases {
  import opened Contracts
  import opened Keys
  import PT = PublishTables

  /** One call of a lease store, with the clock readings it takes. */
  datatype LeaseOp =
    | ClaimOp(key: string, entityID: string, ttl: int, now: int, later: int)
    | GetOp(key: string, now: int)
    | CleanupOp(now: int)

  datatype LeaseAnswer = Claimed(granted: bool) | Found(entityID: Option<string>)

  function Apply(t: PT.LeaseTable, op: LeaseOp): PT.LeaseTable {
    match op
    case ClaimOp(key, entityID, ttl, now, later) => PT.Claim(t, key, entityID, ttl, now, later)
    case GetOp(_, _) => t
    case CleanupOp(now) => PT.Cleanup(t, now)
  }

  function AnswerOf(t: PT.LeaseTable, op: LeaseOp): seq<LeaseAnswer> {
    match op
    case ClaimOp(key, _, _, now, _) => [Claimed(PT.ClaimGranted(t, key, now))]
    case GetOp(key, now) => [Found(PT.GetLease(t, key, now))]
    case CleanupOp(_) => []
  }

  /** The answers to the claims and gets of a trace. */
  function Answers(t: PT.LeaseTable, ops: seq<LeaseOp>): seq<LeaseAnswer>
    decreases ops
  {
    if ops == [] then [] else AnswerOf(t, ops[0]) + Answers(Apply(t, ops[0]), ops[1..])
  }

  function LastReading(op: LeaseOp): int {
    match op
    case ClaimOp(_, _, _, _, later) => later
    case GetOp(_, now) => now
    case CleanupOp(now) => now
  }

  predicate NotBefore(time: int, op: LeaseOp) {
    time <= op.now && (op.ClaimOp? ==> op.now <= op.later)
  }

  /** The clock readings of the trace never go back. */
  predicate Clocked(ops: seq<LeaseOp>) {
    && (forall i :: 0 <= i < |ops| ==> NotBefore(ops[i].now, ops[i]))
    && (forall i, j :: 0 <= i < j < |ops| ==> LastReading(ops[i]) <= ops[j].now)
  }

  /** And they start at `time` at the earliest. */
  predicate Timely(time: int, ops: seq<LeaseOp>) {
    Clocked(ops) && (ops != [] ==> NotBefore(time, ops[0]))
  }

  lemma TimelyOnwards(time: int, ops: seq<LeaseOp>)
    requires Timely(time, ops) && ops != []
    ensures Timely(LastReading(ops[0]), ops[1..])
  {
    forall i, j | 0 <= i < j < |ops[1..]| ensures LastReading(ops[1..][i]) <= ops[1..][j].now {
      assert ops[1..][i] == ops[i + 1] && ops[1..][j] == ops[j + 1];
    }
    if |ops| > 1 { assert NotBefore(ops[1].now, ops[1]) && LastReading(ops[0]) <= ops[1].now; }
  }

  function WithoutCleanups(ops: seq<LeaseOp>): seq<LeaseOp> {
    if ops == [] then []
    else if ops[0].CleanupOp? then WithoutCleanups(ops[1..])
    else [ops[0]] + WithoutCleanups(ops[1..])
  }

  // ----- Cleaning up is invisible -----

  /** The swept table lost only leases that had expired by `time`. */
  ghost predicate Swept(swept: PT.LeaseTable, full: PT.LeaseTable, time: int) {
    && (forall k :: k in swept ==> k in full && full[k] == swept[k])
    && (forall k :: k in full && k !in swept ==> time > full[k].expiresAt)
  }

  lemma SweptStep(swept: PT.LeaseTable, full: PT.LeaseTable, time: int, op: LeaseOp)
    requires Swept(swept, full, time) && NotBefore(time, op)
    ensures op.CleanupOp? ==> Swept(Apply(swept, op), full, LastReading(op))
    ensures !op.CleanupOp? ==> Swept(Apply(swept, op), Apply(full, op), LastReading(op))
    ensures !op.CleanupOp? ==> AnswerOf(swept, op) == AnswerOf(full, op)
  {
  }

  /** Under a clock that never goes back, taking every Cleanup out of a trace, or putting any number of them in
      anywhere, changes no answer of Claim or Get. */
  lemma {:induction false} CleanupInvisible(swept: PT.LeaseTable, full: PT.LeaseTable, time: int, ops: seq<LeaseOp>)
    requires Swept(swept, full, time) && Timely(time, ops)
    ensures Answers(swept, ops) == Answers(full, WithoutCleanups(ops))
    decreases ops
  {
    if ops != [] {
      SweptStep(swept, full, time, ops[0]);
      TimelyOnwards(time, ops);
      hide Timely, Swept, Apply, AnswerOf, LastReading;
      if ops[0].CleanupOp? {
        CleanupInvisible(Apply(swept, ops[0]), full, LastReading(ops[0]), ops[1..]);
        assert AnswerOf(swept, ops[0]) == [] by { CleanupAnswersNothing(swept, ops[0]); }
      } else {
        CleanupInvisible(Apply(swept, ops[0]), Apply(full, ops[0]), LastReading(ops[0]), ops[1..]);
        var rest := WithoutCleanups(ops[1..]);
        assert ([ops[0]] + rest)[1..] == rest;
      }
    }
  }

  lemma CleanupAnswersNothing(t: PT.LeaseTable, op: LeaseOp)
    ensures op.CleanupOp? ==> AnswerOf(t, op) == []
  {
  }

  /** Two traces that differ only in their Cleanup calls get the same answers. */
  lemma {:induction false} CleanupsDoNotMatter(t: PT.LeaseTable, time: int, ops: seq<LeaseOp>, ops': seq<LeaseOp>)
    requires Timely(time, ops) && Timely(time, ops') && WithoutCleanups(ops) == WithoutCleanups(ops')
    ensures Answers(t, ops) == Answers(t, ops')
  {
    CleanupInvisible(t, t, time, ops);
    CleanupInvisible(t, t, time, ops');
  }

  /** A lease both answers Get and may be taken over by Claim at exactly one instant: its expiry. */
  lemma TakenOverAndAnswering(t: PT.LeaseTable, key: string, now: int)
    ensures key in t ==> (PT.GetLease(t, key, now).Some? && PT.ClaimGranted(t, key, now) <==> now == t[key].expiresAt)
    ensures key in t ==> PT.GetLease(t, key, now).Some? || PT.ClaimGranted(t, key, now)
  {
  }

  // ----- Successful claims keep their distance -----

  function After(t: PT.LeaseTable, ops: seq<LeaseOp>): PT.LeaseTable {
    if ops == [] then t else Apply(After(t, ops[..|ops| - 1]), ops[|ops| - 1])
  }

  /** The i-th operation of the trace is a claim of the key that succeeds. */
  predicate ClaimsAt(t: PT.LeaseTable, ops: seq<LeaseOp>, i: nat, key: string) {
    i < |ops| && ops[i].ClaimOp? && ops[i].key == key && PT.ClaimGranted(After(t, ops[..i]), key, ops[i].now)
  }

  /** Until the given moment has passed, the key stays taken. */
  predicate TakenUntil(t: PT.LeaseTable, key: string, time: int, bound: int) {
    time >= bound || (key in t && t[key].expiresAt >= bound)
  }

  lemma StaysTaken(t: PT.LeaseTable, op: LeaseOp, key: string, time: int, bound: int)
    requires TakenUntil(t, key, time, bound) && NotBefore(time, op)
    ensures TakenUntil(Apply(t, op), key, LastReading(op), bound)
    ensures op.ClaimOp? && op.key == key && PT.ClaimGranted(t, key, op.now) ==> op.now >= bound
  {
  }

  lemma {:induction false} StaysTakenAlong(t: PT.LeaseTable, ops: seq<LeaseOp>, i: nat, j: nat, key: string)
    requires Clocked(ops) && ClaimsAt(t, ops, i, key) && i < j <= |ops|
    ensures TakenUntil(After(t, ops[..j]), key, LastReading(ops[j - 1]), ops[i].later + ops[i].ttl)
  {
    assert ops[..j][..j - 1] == ops[..j - 1];
    if i + 1 < j {
      StaysTakenAlong(t, ops, i, j - 1, key);
      hide TakenUntil, ClaimsAt, Apply;
      StaysTaken(After(t, ops[..j - 1]), ops[j - 1], key, LastReading(ops[j - 2]), ops[i].later + ops[i].ttl);
    }
  }

  /** Whatever happens in between, the next successful claim of a key comes no earlier than the first one's
      time to live after it. */
  lemma {:induction false} ClaimsSpaced(t: PT.LeaseTable, ops: seq<LeaseOp>, i: nat, j: nat, key: string)
    requires Clocked(ops) && ClaimsAt(t, ops, i, key) && ClaimsAt(t, ops, j, key) && i < j
    ensures ops[j].now >= ops[i].later + ops[i].ttl
  {
    StaysTakenAlong(t, ops, i, j, key);
    StaysTaken(After(t, ops[..j]), ops[j], key, LastReading(ops[j - 1]), ops[i].later + ops[i].ttl);
  }

  // ----- How long a lease lasts -----

  /** The i-th operation is the last successful claim of the key before the j-th. */
  predicate LastClaim(t: PT.LeaseTable, ops: seq<LeaseOp>, i: nat, j: nat, key: string) {
    i < j <= |ops| && ClaimsAt(t, ops, i, key) && forall m: nat :: i < m < j ==> !ClaimsAt(t, ops, m, key)
  }

  /** The table holds this lease of the key, or the clock has passed its expiry. */
  predicate HeldOrPast(t: PT.LeaseTable, key: string, lease: PT.Lease, time: int) {
    if key in t then t[key] == lease else time > lease.expiresAt
  }

  lemma HeldStep(t: PT.LeaseTable, op: LeaseOp, key: string, lease: PT.Lease, time: int)
    requires HeldOrPast(t, key, lease, time) && NotBefore(time, op)
    requires !(op.ClaimOp? && op.key == key && PT.ClaimGranted(t, key, op.now))
    ensures HeldOrPast(Apply(t, op), key, lease, LastReading(op))
  {
  }

  lemma {:induction false} HeldSince(t: PT.LeaseTable, ops: seq<LeaseOp>, i: nat, j: nat, key: string)
    requires Clocked(ops) && LastClaim(t, ops, i, j, key)
    ensures HeldOrPast(After(t, ops[..j]), key, PT.Lease(ops[i].entityID, ops[i].later + ops[i].ttl),
                       LastReading(ops[j - 1]))
  {
    assert ops[..j][..j - 1] == ops[..j - 1];
    if i + 1 < j {
      HeldSince(t, ops, i, j - 1, key);
      assert !ClaimsAt(t, ops, j - 1, key);
      hide HeldOrPast, Apply;
      HeldStep(After(t, ops[..j - 1]), ops[j - 1], key, PT.Lease(ops[i].entityID, ops[i].later + ops[i].ttl),
               LastReading(ops[j - 2]));
    }
  }

  /** What the last successful claim of a key decides, whatever comes after it, cleanups included: a claim succeeds
      exactly from its time to live after it on, and a look-up finds its holder exactly until then. */
  lemma {:induction false} LeaseLasts(t: PT.LeaseTable, ops: seq<LeaseOp>, i: nat, j: nat, key: string)
    requires Clocked(ops) && j < |ops| && LastClaim(t, ops, i, j, key) && !ops[j].CleanupOp? && ops[j].key == key
    ensures AnswerOf(After(t, ops[..j]), ops[j]) ==
            [if ops[j].ClaimOp? then Claimed(ops[j].now >= ops[i].later + ops[i].ttl)
             else Found(if ops[j].now <= ops[i].later + ops[i].ttl then Some(ops[i].entityID) else None)]
  {
    HeldSince(t, ops, i, j, key);
    assert LastReading(ops[j - 1]) <= ops[j].now;
    hide After, LastClaim, ClaimsAt;
  }

  /** A key that was never claimed is free and has no holder. */
  lemma {:induction false} NeverClaimed(ops: seq<LeaseOp>, j: nat, key: string)
    requires j <= |ops| && forall m: nat :: m < j ==> !ClaimsAt(map[], ops, m, key)
    ensures key !in After(map[], ops[..j])
    ensures j < |ops| && !ops[j].CleanupOp? && ops[j].key == key ==>
              AnswerOf(After(map[], ops[..j]), ops[j]) == [if ops[j].ClaimOp? then Claimed(true) else Found(None)]
  {
    if j > 0 {
      NeverClaimed(ops, j - 1, key);
      assert ops[..j][..j - 1] == ops[..j - 1] && !ClaimsAt(map[], ops, j - 1, key);
    }
  }

  /** A cleanup removes exactly the leases that would not answer a look-up any more. */
  lemma CleanupExactly(t: PT.LeaseTable, now: int, key: string)
    ensures key in PT.Cleanup(t, now) <==> PT.GetLease(t, key, now).Some?
    ensures key in PT.Cleanup(t, now) ==> PT.Cleanup(t, now)[key] == t[key]
  {
  }

  // ----- The two encodings of the key -----

  /** A call that names scope and key separately. */
  datatype ScopedOp =
    | ScopedClaim(scope: string, key: string, entityID: string, ttl: int, now: int, later: int)
    | ScopedGet(scope: string, key: string, now: int)
    | ScopedCleanup(now: int)

  function FullKey(keyFirst: bool, scope: string, key: string): string {
    if keyFirst then Join(key, scope) else ScopedKey(scope, key)
  }

  function Encode(keyFirst: bool, op: ScopedOp): LeaseOp {
    match op
    case ScopedClaim(scope, key, entityID, ttl, now, later) =>
      ClaimOp(FullKey(keyFirst, scope, key), entityID, ttl, now, later)
    case ScopedGet(scope, key, now) => GetOp(FullKey(keyFirst, scope, key), now)
    case ScopedCleanup(now) => CleanupOp(now)
  }

  function EncodeAll(keyFirst: bool, ops: seq<ScopedOp>): seq<LeaseOp> {
    if ops == [] then [] else [Encode(keyFirst, ops[0])] + EncodeAll(keyFirst, ops[1..])
  }

  /** Every call that names a scope names one of these. */
  predicate WithinScopes(ops: seq<ScopedOp>, scopes: set<string>) {
    forall i :: 0 <= i < |ops| && !ops[i].ScopedCleanup? ==> ops[i].scope in scopes
  }

  predicate SameAt(a: PT.LeaseTable, b: PT.LeaseTable, scope: string, key: string) {
    var ka, kb := FullKey(false, scope, key), FullKey(true, scope, key);
    (ka in a <==> kb in b) && (ka in a ==> a[ka] == b[kb])
  }

  /** The two tables hold the same lease for every pair of one of the scopes and a key. */
  ghost predicate SameLeases(a: PT.LeaseTable, b: PT.LeaseTable, scopes: set<string>) {
    forall scope, key :: scope in scopes ==> SameAt(a, b, scope, key)
  }

  predicate EndsWith(s: string, tail: string) {
    |tail| <= |s| && s[|s| - |tail|..] == tail
  }

  /** Neither encoding can run two of the scopes together: no scope, with its separator behind it, begins another
      one, and none, with its separator before it, ends another one. */
  predicate Separable(scopes: set<string>) {
    forall s, s' :: s in scopes && s' in scopes && s != s' ==> !(s + ":" <= s' + ":") && !EndsWith(":" + s', ":" + s)
  }

  lemma TailOfKey(k: string, s: string)
    ensures |Join(k, s)| == |k| + 1 + |s| && Join(k, s)[|k|..] == ":" + s
  {
    assert Join(k, s) == k + (":" + s);
  }

  lemma TailOfTail(s: string, i: nat, j: nat)
    requires i <= j <= |s|
    ensures EndsWith(s[i..], s[j..])
  {
    assert s[i..][j - i..] == s[j..];
  }

  lemma EndOfKey(s: string, k: string, s': string, k': string)
    requires Join(k, s) == Join(k', s') && |s| <= |s'|
    ensures EndsWith(":" + s', ":" + s)
  {
    var whole := Join(k, s);
    TailOfKey(k, s);
    TailOfKey(k', s');
    TailOfTail(whole, |k'|, |k|);
    hide Join;
  }

  lemma KeysApart(scopes: set<string>, s: string, k: string, s': string, k': string)
    requires Separable(scopes) && s in scopes && s' in scopes
    ensures FullKey(false, s, k) == FullKey(false, s', k') <==> s == s' && k == k'
    ensures FullKey(true, s, k) == FullKey(true, s', k') <==> s == s' && k == k'
  {
    if FullKey(false, s, k) == FullKey(false, s', k') {
      assert Combo(s, k) == Combo(s', k');
      CollisionExactly(s, s');
      assert s == s';
      assert FullKey(false, s, k)[|s| + 1..] == k && FullKey(false, s', k')[|s| + 1..] == k';
    }
    if FullKey(true, s, k) == FullKey(true, s', k') {
      if |s| <= |s'| { EndOfKey(s, k, s', k'); } else { EndOfKey(s', k', s, k); }
      assert s == s';
      assert FullKey(true, s, k)[..|k|] == k && FullKey(true, s', k')[..|k'|] == k';
    }
  }

  lemma SameStep(a: PT.LeaseTable, b: PT.LeaseTable, op: ScopedOp, scopes: set<string>)
    requires Separable(scopes) && SameLeases(a, b, scopes) && (op.ScopedCleanup? || op.scope in scopes)
    ensures AnswerOf(a, Encode(false, op)) == AnswerOf(b, Encode(true, op))
    ensures SameLeases(Apply(a, Encode(false, op)), Apply(b, Encode(true, op)), scopes)
  {
    if !op.ScopedCleanup? { assert SameAt(a, b, op.scope, op.key); }
    forall scope, key | scope in scopes
      ensures SameAt(Apply(a, Encode(false, op)), Apply(b, Encode(true, op)), scope, key)
    {
      assert SameAt(a, b, scope, key);
      if op.ScopedClaim? { KeysApart(scopes, scope, key, op.scope, op.key); }
      hide FullKey, Separable;
    }
  }

  /** "scope:key" and "key:scope" answer every trace over separable scopes alike. */
  lemma {:induction false} EncodingsAgree(a: PT.LeaseTable, b: PT.LeaseTable, ops: seq<ScopedOp>, scopes: set<string>)
    requires Separable(scopes) && SameLeases(a, b, scopes) && WithinScopes(ops, scopes)
    ensures Answers(a, EncodeAll(false, ops)) == Answers(b, EncodeAll(true, ops))
    decreases ops
  {
    hide SameLeases, Separable, Apply, AnswerOf, Encode;
    if ops != [] {
      SameStep(a, b, ops[0], scopes);
      assert forall i :: 0 <= i < |ops[1..]| ==> ops[1..][i] == ops[i + 1];
      EncodingsAgree(Apply(a, Encode(false, ops[0])), Apply(b, Encode(true, ops[0])), ops[1..], scopes);
    }
  }

  /** Colon-free scopes, such as the three that the program uses, are separable. */
  lemma {:induction false} ColonFreeScopesAreSeparable(scopes: set<string>)
    requires forall s :: s in scopes ==> ColonFree(s)
    ensures Separable(scopes)
  {
    forall s, s' | s in scopes && s' in scopes && s != s'
      ensures !(s + ":" <= s' + ":") && !EndsWith(":" + s', ":" + s)
    {
      ColonFreeApart(s, s');
    }
  }

  lemma ColonInside(s: string, i: int)
    ensures 0 <= i < |s| && ((s + ":")[i] == ':' || (":" + s)[i + 1] == ':') ==> !ColonFree(s)
  {
    if 0 <= i < |s| { assert s[i] in s && (s + ":")[i] == s[i] == (":" + s)[i + 1]; }
  }

  lemma ColonFreeApart(s: string, s': string)
    requires ColonFree(s) && ColonFree(s')
    ensures s + ":" <= s' + ":" || EndsWith(":" + s', ":" + s) ==> s == s'
  {
    SameWithColon(s, s');
    if s + ":" <= s' + ":" {
      assert (s' + ":")[|s|] == ':';
      ColonInside(s', |s|);
    }
    if EndsWith(":" + s', ":" + s) {
      var d := |s'| - |s|;
      assert (":" + s')[d] == (":" + s')[d..][0] == ':';
      ColonInside(s', d - 1);
    }
  }

  // ----- Scopes that run together -----

  function TwoClaims(s: string, k: string, s': string, k': string): seq<ScopedOp> {
    [ScopedClaim(s, k, "x", 10, 0, 0), ScopedClaim(s', k', "y", 10, 1, 1)]
  }

  /** The second of two claims is refused exactly if the keys coincide. */
  lemma TwoClaimsAnswered(keyFirst: bool, s: string, k: string, s': string, k': string)
    ensures Answers(map[], EncodeAll(keyFirst, TwoClaims(s, k, s', k')))
         == [Claimed(true), Claimed(FullKey(keyFirst, s, k) != FullKey(keyFirst, s', k'))]
  {
    var ops := TwoClaims(s, k, s', k');
    var one, two := Encode(keyFirst, ops[0]), Encode(keyFirst, ops[1]);
    assert ops[1..] == [ops[1]] && ops[1..][1..] == [];
    assert EncodeAll(keyFirst, ops[1..]) == [two];
    assert EncodeAll(keyFirst, ops) == [one, two];
    TwoAnswers(map[], one, two);
    assert Apply(map[], one) == map[FullKey(keyFirst, s, k) := PT.Lease("x", 10)];
    hide FullKey;
  }

  lemma TwoAnswers(t: PT.LeaseTable, one: LeaseOp, two: LeaseOp)
    ensures Answers(t, [one, two]) == AnswerOf(t, one) + AnswerOf(Apply(t, one), two)
  {
    hide Apply, AnswerOf;
    assert [one, two][1..] == [two];
    assert Answers(Apply(t, one), [two]) ==
           AnswerOf(Apply(t, one), two) + Answers(Apply(Apply(t, one), two), [two][1..]);
  }

  /** The encodings answer every trace over these scopes alike, starting from empty stores. */
  ghost predicate AnswerAlike(scopes: set<string>) {
    forall ops :: WithinScopes(ops, scopes) ==>
                    Answers(map[], EncodeAll(false, ops)) == Answers(map[], EncodeAll(true, ops))
  }

  /** Keys that coincide in one encoding only tell the encodings apart. */
  lemma KeysTellApart(scopes: set<string>, s: string, k: string, s': string, k': string)
    requires s in scopes && s' in scopes
    requires (FullKey(false, s, k) == FullKey(false, s', k')) != (FullKey(true, s, k) == FullKey(true, s', k'))
    ensures !AnswerAlike(scopes)
  {
    var ops := TwoClaims(s, k, s', k');
    TwoClaimsAnswered(false, s, k, s', k');
    TwoClaimsAnswered(true, s, k, s', k');
    hide FullKey;
    assert WithinScopes(ops, scopes);
    assert Answers(map[], EncodeAll(false, ops))[1] != Answers(map[], EncodeAll(true, ops))[1];
  }

  /** A character other than the given one. */
  function Other(c: char): (d: char)
    ensures d != c
  {
    if c == 'x' then 'y' else 'x'
  }

  /** A scope of the same length that begins or ends the other one is the other one. */
  lemma SameWithColon(s: string, s': string)
    ensures |s| == |s'| && s + ":" <= s' + ":" ==> s == s'
    ensures |s| == |s'| && EndsWith(":" + s', ":" + s) ==> s == s'
  {
    if |s| == |s'| {
      assert (s + ":")[..|s|] == s && (s' + ":")[..|s|] == s';
      assert (":" + s)[1..] == s && (":" + s')[1..] == s' && (":" + s')[0..] == ":" + s';
    }
  }

  lemma BeginningTellsApart(scopes: set<string>, s: string, s': string)
    requires s in scopes && s' in scopes && s != s' && s + ":" <= s' + ":"
    ensures !AnswerAlike(scopes)
  {
    var rest := (s' + ":")[|s| + 1..];
    assert s' + ":" == s + ":" + rest;
    var key' := [Other((rest + ":")[0])];
    var key := rest + key';
    assert FullKey(false, s, key) == s + ":" + rest + key' == FullKey(false, s', key');
    assert |s'| == |s| + |rest|;
    SameWithColon(s, s');
    assert FullKey(true, s, key)[0] == rest[0] && FullKey(true, s', key')[0] == key'[0];
    KeysTellApart(scopes, s, key, s', key');
  }

  lemma EndTellsApart(scopes: set<string>, s: string, s': string)
    requires s in scopes && s' in scopes && s != s' && EndsWith(":" + s', ":" + s)
    ensures !AnswerAlike(scopes)
  {
    var d := |s'| - |s|;
    var front := (":" + s')[..d];
    assert ":" + s' == front + (":" + s);
    SameWithColon(s, s');
    var key' := [Other(front[d - 1])];
    var key := key' + front;
    assert FullKey(true, s, key) == key' + front + ":" + s;
    assert FullKey(true, s', key') == key' + (":" + s') == FullKey(true, s, key);
    var a, b := FullKey(false, s, key), FullKey(false, s', key');
    assert a[|a| - 1] == front[d - 1] && b[|b| - 1] == key'[0];
    KeysTellApart(scopes, s, key, s', key');
  }

  /** Exactly: the two encodings answer every trace over a set of scopes alike if and only if the scopes are
      separable. */
  lemma {:induction false} EncodingsAgreeExactly(scopes: set<string>)
    ensures AnswerAlike(scopes) <==> Separable(scopes)
  {
    if Separable(scopes) {
      assert SameLeases(map[], map[], scopes);
      forall ops | WithinScopes(ops, scopes)
        ensures Answers(map[], EncodeAll(false, ops)) == Answers(map[], EncodeAll(true, ops))
      {
        EncodingsAgree(map[], map[], ops, scopes);
      }
    } else {
      var s, s' :| s in scopes && s' in scopes && s != s' && (s + ":" <= s' + ":" || EndsWith(":" + s', ":" + s));
      if s + ":" <= s' + ":" { BeginningTellsApart(scopes, s, s'); } else { EndTellsApart(scopes, s, s'); }
    }
  }

  /** For one: with the scopes "a" and "a:b" one encoding refuses the second claim and the other grants it. */
  lemma {:induction false} ColonInScopeTellsThemApart()
    ensures var ops := TwoClaims("a", "b:c", "a:b", "c");
            && Answers(map[], EncodeAll(false, ops)) == [Claimed(true), Claimed(false)]
            && Answers(map[], EncodeAll(true, ops)) == [Claimed(true), Claimed(true)]
  {
    TwoClaimsAnswered(false, "a", "b:c", "a:b", "c");
    TwoClaimsAnswered(true, "a", "b:c", "a:b", "c");
    assert FullKey(false, "a", "b:c") == "a:b:c" == FullKey(false, "a:b", "c");
    assert FullKey(true, "a", "b:c")[0] == 'b' && FullKey(true, "a:b", "c")[0] == 'c';
  }
}
