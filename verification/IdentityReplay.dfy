/** Replay protection of signed identity envelopes.  Claims are purged when they expire; an
    envelope is accepted within a window around its own expiry. */
module IdentityReplay {
  import opened Basics

  type Issuer(==, !new)
  type Jti(==, !new)

  /** `genuine` stands for the checks that do not look at the clock or the store: signature, issuer,
      audience, formats. */
  datatype Envelope = Envelope(issuer: Issuer, jti: Jti, genuine: bool, issuedAt: Time, notBefore: Time, expiresAt: Time)

  datatype Config = Config(skew: nat, maxLifetime: int)

  datatype Id = Id(issuer: Issuer, jti: Jti)

  type Claims = map<Id, Time>

  /** The process-local store keeps what it purged before a refusal; the SQLite store rolls it back. */
  datatype Kind = InMemory | Sqlite

  function IdOf(e: Envelope): Id {
    Id(e.issuer, e.jti)
  }

  /** Until when a claim on the envelope is kept. */
  function KeptUntil(c: Config, e: Envelope): Time {
    e.expiresAt + c.skew
  }

  predicate InWindow(c: Config, e: Envelope, now: Time) {
    && e.issuedAt <= now + c.skew
    && e.notBefore <= now + c.skew
    && now - c.skew < e.expiresAt
    && e.issuedAt < e.expiresAt
    && e.notBefore < e.expiresAt
    && e.expiresAt - e.issuedAt <= c.maxLifetime
  }

  function Purged(claims: Claims, now: Time): Claims {
    map id | id in claims && claims[id] > now :: claims[id]
  }

  function Claim(kind: Kind, claims: Claims, id: Id, until: Time, now: Time): (Claims, bool) {
    var kept := Purged(claims, now);
    if id in kept then (if kind == InMemory then kept else claims, false) else (kept[id := until], true)
  }

  /** Verify one envelope: the window is checked at `now`, the claim is made at `claimNow`. */
  function Verify(kind: Kind, c: Config, claims: Claims, e: Envelope, now: Time, claimNow: Time): (Claims, bool) {
    if !e.genuine || !InWindow(c, e, now) then (claims, false)
    else Claim(kind, claims, IdOf(e), KeptUntil(c, e), claimNow)
  }

  // ---------------------------------------------------------------- runs

  datatype Presentation = Presentation(envelope: Envelope, now: Time, claimNow: Time)

  function ClaimsAfter(kind: Kind, c: Config, run: seq<Presentation>, m: nat): Claims
    requires m <= |run|
  {
    if m == 0 then map[]
    else Verify(kind, c, ClaimsAfter(kind, c, run, m - 1), run[m - 1].envelope, run[m - 1].now, run[m - 1].claimNow).0
  }

  predicate Accepted(kind: Kind, c: Config, run: seq<Presentation>, i: nat)
    requires i < |run|
  {
    Verify(kind, c, ClaimsAfter(kind, c, run, i), run[i].envelope, run[i].now, run[i].claimNow).1
  }

  /** An accepted envelope is genuine, lived no longer than allowed, and is presented between its
      issue and its expiry, give or take the skew; its claim is then kept until the skewed expiry. */
  lemma AcceptedInTime(kind: Kind, c: Config, run: seq<Presentation>, i: nat)
    requires i < |run| && Accepted(kind, c, run, i)
    ensures var e, now := run[i].envelope, run[i].now;
            && e.genuine && e.expiresAt - e.issuedAt <= c.maxLifetime
            && e.issuedAt - c.skew <= now < e.expiresAt + c.skew && e.notBefore - c.skew <= now
            && e.issuedAt < e.expiresAt && e.notBefore < e.expiresAt
    ensures var claims := ClaimsAfter(kind, c, run, i + 1);
            var id := Id(run[i].envelope.issuer, run[i].envelope.jti);
            id in claims && claims[id] == run[i].envelope.expiresAt + c.skew
  {
    assert ClaimsAfter(kind, c, run, i + 1) ==
           Verify(kind, c, ClaimsAfter(kind, c, run, i), run[i].envelope, run[i].now, run[i].claimNow).0;
  }

  /** The call gets past its own checks and so to the store. */
  predicate Reaches(c: Config, p: Presentation) {
    p.envelope.genuine && InWindow(c, p.envelope, p.now)
  }

  /** Call `k` drops a claim kept until `until`, and the drop lasts. */
  predicate Purges(kind: Kind, c: Config, run: seq<Presentation>, k: nat, until: Time) {
    && k < |run|
    && Reaches(c, run[k])
    && until <= run[k].claimNow
    && (kind == InMemory || Accepted(kind, c, run, k))
  }

  predicate PurgedBetween(kind: Kind, c: Config, run: seq<Presentation>, i: nat, j: nat, until: Time) {
    exists k: nat | i < k < j :: Purges(kind, c, run, k, until)
  }

  /** Some call after `i` and up to `j` read, for its claim, a time at which the claim has run out. */
  predicate PassedBy(c: Config, run: seq<Presentation>, i: nat, j: nat, until: Time)
    requires j < |run|
  {
    exists k: nat | i < k <= j :: Reaches(c, run[k]) && until <= run[k].claimNow
  }

  /** After an acceptance its claim is in the store exactly as long as no call has purged it, if
      nobody is accepted under the same id meanwhile. */
  lemma {:induction false} ClaimLivesUntilPurged(kind: Kind, c: Config, run: seq<Presentation>, i: nat, m: nat)
    requires i < m <= |run| && Accepted(kind, c, run, i)
    requires forall k: nat | i < k < m :: Accepted(kind, c, run, k) ==> IdOf(run[k].envelope) != IdOf(run[i].envelope)
    ensures var claims := ClaimsAfter(kind, c, run, m);
            var id, until := IdOf(run[i].envelope), KeptUntil(c, run[i].envelope);
            && (id in claims <==> !PurgedBetween(kind, c, run, i, m, until))
            && (id in claims ==> claims[id] == until)
    decreases m
  {
    if i < m - 1 {
      var k := m - 1;
      var until := KeptUntil(c, run[i].envelope);
      ClaimLivesUntilPurged(kind, c, run, i, k);
      assert Accepted(kind, c, run, k) ==> IdOf(run[k].envelope) != IdOf(run[i].envelope);
      assert PurgedBetween(kind, c, run, i, m, until) <==>
             PurgedBetween(kind, c, run, i, k, until) || Purges(kind, c, run, k, until);
    }
  }

  /** Exactly when, with no assumption on the clock: the next presentation of an accepted envelope is
      accepted again if and only if it is in its window and the claim has run out at its own claim
      reading or was purged by a call in between. */
  lemma RepeatAcceptedIff(kind: Kind, c: Config, run: seq<Presentation>, i: nat, j: nat)
    requires i < j < |run| && run[j].envelope == run[i].envelope && Accepted(kind, c, run, i)
    requires forall k: nat | i < k < j :: Accepted(kind, c, run, k) ==> IdOf(run[k].envelope) != IdOf(run[i].envelope)
    ensures var until := KeptUntil(c, run[i].envelope);
            Accepted(kind, c, run, j) <==>
              InWindow(c, run[i].envelope, run[j].now)
              && (until <= run[j].claimNow || PurgedBetween(kind, c, run, i, j, until))
  {
    ClaimLivesUntilPurged(kind, c, run, i, j);
  }

  /** A claim stays with its own expiry until some call's reading has passed it, whoever comes between. */
  lemma {:induction false} ClaimStaysOrIsPassed(kind: Kind, c: Config, run: seq<Presentation>, i: nat, m: nat)
    requires i < m <= |run| && Accepted(kind, c, run, i)
    ensures var claims := ClaimsAfter(kind, c, run, m);
            var id, until := IdOf(run[i].envelope), KeptUntil(c, run[i].envelope);
            (id in claims && claims[id] == until) || PassedBy(c, run, i, m - 1, until)
    decreases m
  {
    if i < m - 1 {
      ClaimStaysOrIsPassed(kind, c, run, i, m - 1);
    }
  }

  /** Whatever else was presented: a second acceptance needs a window check before the claim's expiry
      and a claim reading at or after it, by this call or by one that entered the store before it. */
  lemma RepeatNeedsPassing(kind: Kind, c: Config, run: seq<Presentation>, i: nat, j: nat)
    requires i < j < |run| && run[j].envelope == run[i].envelope
    requires Accepted(kind, c, run, i) && Accepted(kind, c, run, j)
    ensures run[j].now < KeptUntil(c, run[i].envelope) && PassedBy(c, run, i, j, KeptUntil(c, run[i].envelope))
  {
    ClaimStaysOrIsPassed(kind, c, run, i, j);
  }

  /** Claim readings come in the order in which the store serves them, as if read under its lock. */
  predicate ReadUnderLock(run: seq<Presentation>) {
    forall i, j | 0 <= i < j < |run| :: run[i].claimNow <= run[j].claimNow
  }

  /** One clock reading per verification, taken under the store's lock: no envelope is accepted twice
      in any run, although claims are purged. */
  lemma NoReplayWithOneReading(kind: Kind, c: Config, run: seq<Presentation>)
    requires ReadUnderLock(run) && forall k | 0 <= k < |run| :: run[k].now == run[k].claimNow
    ensures forall i, j | 0 <= i < j < |run| && Accepted(kind, c, run, i) && Accepted(kind, c, run, j) ::
              run[i].envelope != run[j].envelope
  {
    forall i, j | 0 <= i < j < |run| && Accepted(kind, c, run, i) && Accepted(kind, c, run, j)
      ensures run[i].envelope != run[j].envelope
    {
      if run[i].envelope == run[j].envelope {
        RepeatNeedsPassing(kind, c, run, i, j);
      }
    }
  }

  /** With the code's two readings one envelope can be accepted twice by calls that do not even
      overlap: the second window check is just in time, the second claim just too late. */
  lemma TwoReadingsAcceptTwice(kind: Kind, issuer: Issuer, jti: Jti)
    ensures var e := Envelope(issuer, jti, true, 0, 0, 10);
            var run := [Presentation(e, 1, 1), Presentation(e, 14, 15)];
            var c := Config(5, 100);
            ReadUnderLock(run) && Accepted(kind, c, run, 0) && Accepted(kind, c, run, 1)
  {
    var e := Envelope(issuer, jti, true, 0, 0, 10);
    var run := [Presentation(e, 1, 1), Presentation(e, 14, 15)];
    assert Accepted(kind, Config(5, 100), run, 0);
    RepeatAcceptedIff(kind, Config(5, 100), run, 0, 1);
  }

  /** Even one reading per call is not enough when it is taken before the lock: a later reading enters
      the store first and purges the claim, and an earlier one then finds it gone. */
  lemma OverlapAcceptsTwice(kind: Kind, issuer: Issuer, jti: Jti, other: Jti)
    requires jti != other
    ensures var e, f := Envelope(issuer, jti, true, 0, 0, 10), Envelope(issuer, other, true, 10, 10, 20);
            var run := [Presentation(e, 1, 1), Presentation(f, 15, 15), Presentation(e, 14, 14)];
            var c := Config(5, 100);
            && (forall k | 0 <= k < |run| :: run[k].now == run[k].claimNow)
            && Accepted(kind, c, run, 0) && Accepted(kind, c, run, 1) && Accepted(kind, c, run, 2)
  {
    var e, f := Envelope(issuer, jti, true, 0, 0, 10), Envelope(issuer, other, true, 10, 10, 20);
    var run := [Presentation(e, 1, 1), Presentation(f, 15, 15), Presentation(e, 14, 14)];
    var c := Config(5, 100);
    assert Accepted(kind, c, run, 0);
    ClaimLivesUntilPurged(kind, c, run, 0, 1);
    assert Accepted(kind, c, run, 1);
    assert Purges(kind, c, run, 1, 15);
    RepeatAcceptedIff(kind, c, run, 0, 2);
  }

  // ---------------------------------------------------------------- the stores

  class InMemoryReplayStore {
    var claims: Claims

    constructor ()
      ensures claims == map[]
    {
      claims := map[];
    }

    method ClaimId(id: Id, until: Time, now: Time) returns (claimed: bool)
      modifies this
      ensures (claims, claimed) == Claim(InMemory, old(claims), id, until, now)
      ensures claimed <==> (id in old(claims) ==> old(claims)[id] <= now)
      ensures id in claims && (claims[id] > now || claims[id] == until)
      ensures forall k | k in old(claims) && old(claims)[k] > now :: k in claims && claims[k] == old(claims)[k]
    {
      claims := map k | k in claims && claims[k] > now :: claims[k];
      if id in claims {
        return false;
      }
      claims := claims[id := until];
      claimed := true;
    }
  }

  class SqliteReplayStore {
    var claims: Claims

    constructor ()
      ensures claims == map[]
    {
      claims := map[];
    }

    method ClaimId(id: Id, until: Time, now: Time) returns (claimed: bool)
      modifies this
      ensures (claims, claimed) == Claim(Sqlite, old(claims), id, until, now)
      ensures claimed <==> (id in old(claims) ==> old(claims)[id] <= now)
      ensures !claimed ==> claims == old(claims)
    {
      var before := claims;
      claims := claims - set k | k in claims && claims[k] <= now;
      assert claims == Purged(before, now);
      if id in claims {
        claims := before;
        return false;
      }
      claims := claims[id := until];
      claimed := true;
    }
  }

  // ---------------------------------------------------------------- the provider

  datatype Rejection =
    | NotGenuine | IssuedInFuture | NotActiveYet | Expired | ExpiresBeforeIssued | StartsAfterExpiry | LivesTooLong
    | AlreadyUsed

  class IdentityProvider {
    const config: Config
    const replays: SqliteReplayStore

    constructor (config: Config, replays: SqliteReplayStore)
      ensures this.config == config && this.replays == replays
    {
      this.config, this.replays := config, replays;
    }

    /** Accepts exactly a genuine envelope inside its window whose id is not claimed; the clock is
        read at `now` for the window and again at `claimNow` for the claim. */
    method VerifyEnvelope(e: Envelope, now: Time, claimNow: Time) returns (rejection: Option<Rejection>)
      modifies replays
      ensures (replays.claims, rejection.None?) == Verify(Sqlite, config, old(replays.claims), e, now, claimNow)
      ensures rejection == Some(AlreadyUsed) <==>
                e.genuine && InWindow(config, e, now) && IdOf(e) in Purged(old(replays.claims), claimNow)
    {
      if !e.genuine {
        return Some(NotGenuine);
      }
      if e.issuedAt > now + config.skew {
        return Some(IssuedInFuture);
      }
      if e.notBefore > now + config.skew {
        return Some(NotActiveYet);
      }
      if e.expiresAt <= now - config.skew {
        return Some(Expired);
      }
      if e.expiresAt <= e.issuedAt {
        return Some(ExpiresBeforeIssued);
      }
      if e.notBefore >= e.expiresAt {
        return Some(StartsAfterExpiry);
      }
      if e.expiresAt - e.issuedAt > config.maxLifetime {
        return Some(LivesTooLong);
      }
      var claimed := replays.ClaimId(IdOf(e), e.expiresAt + config.skew, claimNow);
      rejection := if claimed then None else Some(AlreadyUsed);
    }
  }
}
