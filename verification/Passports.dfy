/** Agent passports: credence/passport/service.py.  Signing, signature checking and the canonical
    encoding are arbitrary functions; that a signer's own signatures check is an assumption where
    it is needed. */
module Passports {
  import opened Tables

  datatype Reason =
    | IssuerUnknown | IdentityInvalid | AudienceMismatch | NotYetValid | Expired
    | Revoked | ScopeMissing | NonceReplayed

  /** A datetime: an instant, written with a time zone or without one. */
  datatype Moment = Moment(at: int, zoned: bool)

  /** What is signed; `rest` stands for the descriptive fields no check looks at. */
  datatype Payload = Payload(
    agent: string, scopes: seq<string>, maxBorrowing: int, maxTransaction: int,
    validFrom: Moment, expiresAt: Moment, nonce: string, issuer: string, audience: string, rest: seq<string>)

  /** The signature is text; not every text decodes. */
  datatype Signed = Signed(payload: Payload, signature: string, pem: string)

  datatype Crypto = Crypto(encode: Payload -> string, decodes: string -> bool, check: (string, string, string) -> bool)

  datatype Signer = Signer(pem: string, issuer: string, sign: string -> string)

  ghost predicate Honest(c: Crypto, s: Signer) {
    forall data :: c.decodes(s.sign(data)) && c.check(s.pem, s.sign(data), data)
  }

  // ----- Stores -----

  class InMemoryRevocationStore {
    var revoked: map<(string, string), string>
    var revokedAgents: map<string, string>

    constructor ()
      ensures revoked == map[] && revokedAgents == map[]
    {
      revoked, revokedAgents := map[], map[];
    }

    predicate IsRevoked(agent: string, nonce: string)
      reads this
    {
      agent in revokedAgents || (agent, nonce) in revoked
    }

    /** The empty nonce revokes the agent entirely.  Nothing is ever un-revoked. */
    method Revoke(agent: string, nonce: string, reason: string)
      modifies this
      ensures forall a, n :: IsRevoked(a, n) <==> old(IsRevoked(a, n)) || (a == agent && (nonce == "" || n == nonce))
    {
      if nonce != "" {
        revoked := revoked[(agent, nonce) := reason];
      } else {
        revokedAgents := revokedAgents[agent := reason];
      }
    }
  }

  class InMemoryNonceStore {
    var seen: set<string>

    constructor ()
      ensures seen == {}
    {
      seen := {};
    }

    method Consume(nonce: string) returns (unused: bool)
      modifies this
      ensures unused <==> nonce !in old(seen)
      ensures seen == old(seen) + {nonce}
    {
      if nonce in seen {
        return false;
      }
      seen := seen + {nonce};
      return true;
    }
  }

  // ----- The service -----

  /** A privileged request: the scope it needs, and its single-use nonce when one is demanded. */
  datatype Request = Request(scope: Option<string>, nonce: Option<string>)

  datatype Trust = Trust(signer: Signer, issuers: set<string>, audience: string)

  /** Where a verification is cut short by an exception: decoding the signature, or comparing a
      time that has a zone with one that has none. */
  datatype Stop = AtSignature | AtStart | AtEnd | Never

  function StopOf(c: Crypto, t: Trust, p: Signed, now: Moment): Stop {
    if p.pem == t.signer.pem && !c.decodes(p.signature) then AtSignature
    else if p.payload.validFrom.zoned != now.zoned then AtStart
    else if p.payload.expiresAt.zoned != now.zoned then AtEnd
    else Never
  }

  /** When a reason is due.  An exception denies the identity and hides the checks after it. */
  predicate Flaw(r: Reason, c: Crypto, t: Trust, p: Signed, revoked: bool, q: Request, seen: set<string>, now: Moment) {
    var stop := StopOf(c, t, p, now);
    match r
    case IssuerUnknown => p.payload.issuer !in t.issuers
    case IdentityInvalid =>
      p.pem != t.signer.pem || stop != Never || !c.check(t.signer.pem, p.signature, c.encode(p.payload))
    case AudienceMismatch => stop != AtSignature && p.payload.audience != t.audience
    case NotYetValid => (stop == AtEnd || stop == Never) && p.payload.validFrom.at > now.at
    case Expired => stop == Never && p.payload.expiresAt.at <= now.at
    case Revoked => stop == Never && revoked
    case ScopeMissing => stop == Never && q.scope.Some? && q.scope.value !in p.payload.scopes
    case NonceReplayed => stop == Never && q.nonce.Some? && (q.nonce.value == "" || q.nonce.value in seen)
  }

  class PassportService {
    const trust: Trust
    const maxTtl: int
    const revocations: InMemoryRevocationStore

    constructor (signer: Signer, audience: string, maxTtl: int, revocations: InMemoryRevocationStore)
      ensures trust == Trust(signer, {signer.issuer}, audience)
      ensures this.maxTtl == maxTtl && this.revocations == revocations
    {
      trust, this.maxTtl, this.revocations := Trust(signer, {signer.issuer}, audience), maxTtl, revocations;
    }

    /** `issue`; None is the ValueError of a lifetime over the maximum or of a negative amount. */
    method Issue(c: Crypto, agent: string, scopes: seq<string>, maxBorrowing: int, maxTransaction: int,
                 rest: seq<string>, ttl: int, nonce: string, now: Moment)
      returns (r: Option<Signed>)
      ensures r.None? <==> ttl > maxTtl || maxBorrowing < 0 || maxTransaction < 0
      ensures r.Some? ==> Issued(c, trust, r.value)
      ensures r.Some? ==> var p := r.value.payload;
        && p.agent == agent && p.nonce == nonce && p.scopes == scopes
        && p.maxBorrowing == maxBorrowing && p.maxTransaction == maxTransaction
        && p.validFrom == now && p.expiresAt == now.(at := now.at + ttl) && ttl <= maxTtl
    {
      if ttl > maxTtl {
        return None;
      }
      if maxBorrowing < 0 || maxTransaction < 0 {
        return None;
      }
      var s := trust.signer;
      var payload := Payload(agent, scopes, maxBorrowing, maxTransaction, now, now.(at := now.at + ttl), nonce,
                             s.issuer, trust.audience, rest);
      r := Some(Signed(payload, s.sign(c.encode(payload)), s.pem));
      assert payload.issuer == s.issuer;
    }

    /** `verify`: every reason that is due.  A nonce is consumed even when another check has
        failed, but not when an exception cuts the verification short. */
    method Verify(c: Crypto, p: Signed, q: Request, nonces: InMemoryNonceStore, now: Moment)
      returns (reasons: seq<Reason>)
      modifies nonces
      ensures var revoked := old(revocations.IsRevoked(p.payload.agent, p.payload.nonce));
        forall r :: r in reasons <==> Flaw(r, c, trust, p, revoked, q, old(nonces.seen), now)
      ensures nonces.seen == old(nonces.seen) + ConsumedBy(c, trust, Use(p, q.nonce, now))
    {
      var stop;
      reasons, stop := OriginReasons(c, p);
      if stop {
        return reasons + [IdentityInvalid];
      }
      var late;
      late, stop := WindowReasons(p, now);
      reasons := reasons + late;
      if stop {
        return reasons + [IdentityInvalid];
      }
      var inUse := UseReasons(p, q, nonces);
      reasons := reasons + inUse;
    }

    /** Issuer, key, signature and audience.  Only the service's own key is trusted; `raised` is
        the exception of a signature that does not decode. */
    method OriginReasons(c: Crypto, p: Signed) returns (reasons: seq<Reason>, raised: bool)
      ensures raised <==> p.pem == trust.signer.pem && !c.decodes(p.signature)
      ensures forall r :: r in reasons <==>
        || (r == IssuerUnknown && p.payload.issuer !in trust.issuers)
        || (r == AudienceMismatch && !raised && p.payload.audience != trust.audience)
        || (r == IdentityInvalid && !raised
            && (p.pem != trust.signer.pem || !c.check(trust.signer.pem, p.signature, c.encode(p.payload))))
    {
      reasons, raised := [], false;
      if p.payload.issuer !in trust.issuers {
        reasons := reasons + [IssuerUnknown];
      }
      if p.pem != trust.signer.pem {
        reasons := reasons + [IdentityInvalid];
      } else if !c.decodes(p.signature) {
        return reasons, true;
      } else if !c.check(trust.signer.pem, p.signature, c.encode(p.payload)) {
        reasons := reasons + [IdentityInvalid];
      }
      if p.payload.audience != trust.audience {
        reasons := reasons + [AudienceMismatch];
      }
    }

    /** The validity window; `raised` is the exception of comparing times with and without a zone. */
    method WindowReasons(p: Signed, now: Moment) returns (reasons: seq<Reason>, raised: bool)
      ensures raised <==> p.payload.validFrom.zoned != now.zoned || p.payload.expiresAt.zoned != now.zoned
      ensures forall r :: r in reasons <==>
        || (r == NotYetValid && p.payload.validFrom.zoned == now.zoned && p.payload.validFrom.at > now.at)
        || (r == Expired && !raised && p.payload.expiresAt.at <= now.at)
    {
      reasons, raised := [], false;
      if p.payload.validFrom.zoned != now.zoned {
        return reasons, true;
      }
      if p.payload.validFrom.at > now.at {
        reasons := reasons + [NotYetValid];
      }
      if p.payload.expiresAt.zoned != now.zoned {
        return reasons, true;
      }
      if p.payload.expiresAt.at <= now.at {
        reasons := reasons + [Expired];
      }
    }

    /** Revocation, scope and the single-use nonce. */
    method UseReasons(p: Signed, q: Request, nonces: InMemoryNonceStore) returns (reasons: seq<Reason>)
      modifies nonces
      ensures forall r :: r in reasons <==>
        || (r == Revoked && old(revocations.IsRevoked(p.payload.agent, p.payload.nonce)))
        || (r == ScopeMissing && q.scope.Some? && q.scope.value !in p.payload.scopes)
        || (r == NonceReplayed && q.nonce.Some? && (q.nonce.value == "" || q.nonce.value in old(nonces.seen)))
      ensures nonces.seen == old(nonces.seen) + if q.nonce.Some? && q.nonce.value != "" then {q.nonce.value} else {}
    {
      reasons := [];
      if revocations.IsRevoked(p.payload.agent, p.payload.nonce) {
        reasons := reasons + [Revoked];
      }
      if q.scope.Some? && q.scope.value !in p.payload.scopes {
        reasons := reasons + [ScopeMissing];
      }
      if q.nonce.Some? {
        var unused := false;
        if q.nonce.value != "" {
          unused := nonces.Consume(q.nonce.value);
        }
        if !unused {
          reasons := reasons + [NonceReplayed];
        }
      }
    }
  }

  /** Made by this service for this audience, with its own signature. */
  predicate Issued(c: Crypto, t: Trust, p: Signed) {
    && p.payload.issuer == t.signer.issuer && p.payload.audience == t.audience
    && p.pem == t.signer.pem && p.signature == t.signer.sign(c.encode(p.payload))
    && p.payload.validFrom.zoned == p.payload.expiresAt.zoned
  }

  /** Fail closed: a verification that finds nothing wrong ran to its end, on the service's own
      key, signature, issuer and audience, inside the window, unrevoked, in scope and with a new
      nonce if one was demanded; and conversely. */
  lemma AcceptedMeansAllHolds(c: Crypto, t: Trust, p: Signed, revoked: bool, q: Request, seen: set<string>, now: Moment)
    ensures (forall r :: !Flaw(r, c, t, p, revoked, q, seen, now)) <==>
      && StopOf(c, t, p, now) == Never
      && p.payload.issuer in t.issuers && p.pem == t.signer.pem && p.payload.audience == t.audience
      && c.check(t.signer.pem, p.signature, c.encode(p.payload))
      && p.payload.validFrom.at <= now.at < p.payload.expiresAt.at && !revoked
      && (q.scope.Some? ==> q.scope.value in p.payload.scopes)
      && (q.nonce.Some? ==> q.nonce.value != "" && q.nonce.value !in seen)
  {
    if forall r :: !Flaw(r, c, t, p, revoked, q, seen, now) {
      assert !Flaw(IssuerUnknown, c, t, p, revoked, q, seen, now);
      assert !Flaw(IdentityInvalid, c, t, p, revoked, q, seen, now);
      assert !Flaw(AudienceMismatch, c, t, p, revoked, q, seen, now);
      assert !Flaw(NotYetValid, c, t, p, revoked, q, seen, now);
      assert !Flaw(Expired, c, t, p, revoked, q, seen, now);
      assert !Flaw(Revoked, c, t, p, revoked, q, seen, now);
      assert !Flaw(ScopeMissing, c, t, p, revoked, q, seen, now);
      assert !Flaw(NonceReplayed, c, t, p, revoked, q, seen, now);
    }
  }

  /** Round trip: a passport the service issued fails for its time window, revocation, scope or
      nonce, and for nothing else; except that it is always denied on a clock that writes zones
      when the issuing clock did not, or the other way round. */
  lemma IssuedFailsOnlyInUse(c: Crypto, t: Trust, p: Signed, revoked: bool, q: Request, seen: set<string>,
                             now: Moment, r: Reason)
    requires Honest(c, t.signer) && t.signer.issuer in t.issuers && Issued(c, t, p)
    ensures Flaw(r, c, t, p, revoked, q, seen, now) <==>
      if now.zoned != p.payload.validFrom.zoned then r == IdentityInvalid else
      || (r == NotYetValid && now.at < p.payload.validFrom.at) || (r == Expired && p.payload.expiresAt.at <= now.at)
      || (r == Revoked && revoked) || (r == ScopeMissing && q.scope.Some? && q.scope.value !in p.payload.scopes)
      || (r == NonceReplayed && q.nonce.Some? && (q.nonce.value == "" || q.nonce.value in seen))
  {
    var data := c.encode(p.payload);
    assert c.decodes(t.signer.sign(data)) && c.check(t.signer.pem, t.signer.sign(data), data);
  }

  // ----- Replay -----

  /** One verification of a run: the passport, the nonce demanded, and when. */
  datatype Use = Use(passport: Signed, nonce: Option<string>, now: Moment)

  predicate Completes(c: Crypto, t: Trust, u: Use) { StopOf(c, t, u.passport, u.now) == Never }

  /** What `Verify` adds to the nonce store. */
  function ConsumedBy(c: Crypto, t: Trust, u: Use): set<string> {
    if Completes(c, t, u) && u.nonce.Some? && u.nonce.value != "" then {u.nonce.value} else {}
  }

  /** The nonce store after a run of verifications, in which anything else may have failed. */
  function SeenAfter(c: Crypto, t: Trust, uses: seq<Use>): set<string> {
    if uses == [] then {} else SeenAfter(c, t, uses[..|uses| - 1]) + ConsumedBy(c, t, uses[|uses| - 1])
  }

  lemma {:induction false} SeenIsConsumed(c: Crypto, t: Trust, uses: seq<Use>, x: string)
    ensures x in SeenAfter(c, t, uses) <==>
      x != "" && exists u :: u in uses && Completes(c, t, u) && u.nonce == Some(x)
  {
    if uses != [] {
      var n := |uses| - 1;
      SeenIsConsumed(c, t, uses[..n], x);
      assert uses == uses[..n] + [uses[n]];
    }
  }

  /** Over any run against one store, a verification that runs to its end finds its nonce replayed
      exactly when the nonce is empty or an earlier one that ran to its end carried it, whatever
      else was wrong with either.  One cut short by an exception neither checks nor spends it. */
  lemma NonceGoodOnce(c: Crypto, t: Trust, uses: seq<Use>, i: nat, x: string, revoked: bool, scope: Option<string>)
    requires i < |uses| && uses[i].nonce == Some(x)
    ensures Flaw(NonceReplayed, c, t, uses[i].passport, revoked, Request(scope, Some(x)), SeenAfter(c, t, uses[..i]),
                 uses[i].now)
      <==> Completes(c, t, uses[i])
           && (x == "" || exists k :: 0 <= k < i && Completes(c, t, uses[k]) && uses[k].nonce == Some(x))
  {
    SeenIsConsumed(c, t, uses[..i], x);
    if x in SeenAfter(c, t, uses[..i]) {
      var u :| u in uses[..i] && Completes(c, t, u) && u.nonce == Some(x);
      var k :| 0 <= k < i && uses[..i][k] == u;
      assert uses[k] == u;
    }
    if k :| 0 <= k < i && Completes(c, t, uses[k]) && uses[k].nonce == Some(x) {
      assert uses[k] in uses[..i];
    }
  }

  /** Hence no nonce is accepted twice. */
  lemma NonceAcceptedOnce(c: Crypto, t: Trust, uses: seq<Use>, i: nat, k: nat, x: string,
                          revoked: bool, scope: Option<string>, revoked': bool, scope': Option<string>)
    requires i < k < |uses| && uses[i].nonce == Some(x) && uses[k].nonce == Some(x)
    requires forall r :: !Flaw(r, c, t, uses[i].passport, revoked, Request(scope, Some(x)),
                               SeenAfter(c, t, uses[..i]), uses[i].now)
    ensures exists r :: Flaw(r, c, t, uses[k].passport, revoked', Request(scope', Some(x)),
                             SeenAfter(c, t, uses[..k]), uses[k].now)
  {
    AcceptedMeansAllHolds(c, t, uses[i].passport, revoked, Request(scope, Some(x)), SeenAfter(c, t, uses[..i]),
                          uses[i].now);
    NonceGoodOnce(c, t, uses, k, x, revoked', scope');
    var q, seen := Request(scope', Some(x)), SeenAfter(c, t, uses[..k]);
    assert Flaw(NonceReplayed, c, t, uses[k].passport, revoked', q, seen, uses[k].now)
        || Flaw(IdentityInvalid, c, t, uses[k].passport, revoked', q, seen, uses[k].now);
  }
}
