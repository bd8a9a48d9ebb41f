/** The second, independent spend control: credence/policy/engine.py over an input document. */
module Policy {
  datatype Json =
    | Null | Bool(b: bool) | Int(n: int) | Real(x: real) | Str(s: string)
    | List(items: seq<Json>) | Dict(fields: map<string, Json>)

  datatype Deny =
    | IdentityInvalid | WindowUnknown | AuthorizationExpired | AgentNotActive | VaultNotSpendable
    | VendorDenied | AmountsUnknown | OverTransactionLimit | OverTaskLimit | RiskNotPass

  /** Null stands for Python's None, which is also what a missing path yields. */
  function Get(doc: Json, path: seq<string>): Json
    decreases |path|
  {
    if path == [] then doc
    else if doc.Dict? && path[0] in doc.fields then Get(doc.fields[path[0]], path[1..])
    else Null
  }

  /** `_get`: walks the document with a cursor. */
  method Lookup(doc: Json, path: seq<string>) returns (r: Json)
    ensures r == Get(doc, path)
  {
    var cur := doc;
    var i := 0;
    while i < |path|
      invariant 0 <= i <= |path|
      invariant Get(doc, path) == Get(cur, path[i..])
    {
      if !cur.Dict? || path[i] !in cur.fields {
        return Null;
      }
      cur := cur.fields[path[i]];
      i := i + 1;
    }
    r := cur;
  }

  /** isinstance(v, int): Python's bool is an int. */
  predicate IsInt(v: Json) { v.Int? || v.Bool? }

  function AsInt(v: Json): int
    requires IsInt(v)
  {
    if v.Int? then v.n else if v.b then 1 else 0
  }

  predicate IsNumber(v: Json) { IsInt(v) || v.Real? }

  function AsReal(v: Json): real
    requires IsNumber(v)
  {
    if v.Real? then v.x else AsInt(v) as real
  }

  /** The fields a document must carry, and where. */
  datatype Field =
    | IdentityValid | ExpiresAt | Now | AgentStatus | VaultStatus | VendorId
    | AllowedVendors | Amount | PerTransaction | Spent | Total | RiskStatus

  function Path(f: Field): (path: seq<string>)
    ensures path != []
  {
    match f
    case IdentityValid => ["identity", "valid"]
    case ExpiresAt => ["identity", "expires_at"]
    case Now => ["now"]
    case AgentStatus => ["agent", "status"]
    case VaultStatus => ["vault", "status"]
    case VendorId => ["vendor", "id"]
    case AllowedVendors => ["vault", "allowed_vendor_ids"]
    case Amount => ["transaction", "amount_minor"]
    case PerTransaction => ["vault", "per_transaction_limit_minor"]
    case Spent => ["vault", "spent_minor"]
    case Total => ["vault", "total_limit_minor"]
    case RiskStatus => ["risk", "policy_status"]
  }

  /** What the evaluator reads from a document, in reading order. */
  datatype Reading = Reading(
    valid: Json, expiresAt: Json, now: Json, agentStatus: Json, vaultStatus: Json, vendor: Json,
    allowed: Json, amount: Json, perTxn: Json, spent: Json, total: Json, risk: Json)
  {
    function At(f: Field): Json {
      match f
      case IdentityValid => valid
      case ExpiresAt => expiresAt
      case Now => now
      case AgentStatus => agentStatus
      case VaultStatus => vaultStatus
      case VendorId => vendor
      case AllowedVendors => allowed
      case Amount => amount
      case PerTransaction => perTxn
      case Spent => spent
      case Total => total
      case RiskStatus => risk
    }

    predicate Amounts() { IsInt(amount) && IsInt(perTxn) && IsInt(spent) && IsInt(total) }

    predicate Window() { IsNumber(expiresAt) && IsNumber(now) }

    predicate VendorListed() { vendor.Str? && allowed.List? && vendor in allowed.items }

    /** When a denial is due. */
    predicate Denied(d: Deny) {
      match d
      case IdentityInvalid => valid != Bool(true)
      case WindowUnknown => !Window()
      case AuthorizationExpired => Window() && AsReal(expiresAt) <= AsReal(now)
      case AgentNotActive => agentStatus != ACTIVE
      case VaultNotSpendable => vaultStatus != ACTIVE && vaultStatus != SPENDING
      case VendorDenied => !VendorListed()
      case AmountsUnknown => !Amounts() || AsInt(amount) <= 0
      case OverTransactionLimit => Amounts() && 0 < AsInt(amount) && AsInt(perTxn) < AsInt(amount)
      case OverTaskLimit => Amounts() && 0 < AsInt(amount) && AsInt(total) < AsInt(spent) + AsInt(amount)
      case RiskNotPass => risk != PASS
    }

    ghost function Denials(): set<Deny> { set d: Deny | Denied(d) }

    /** Everything an allowed document says. */
    predicate Allows() {
      && valid == Bool(true)
      && Window() && AsReal(now) < AsReal(expiresAt)
      && agentStatus == ACTIVE
      && (vaultStatus == ACTIVE || vaultStatus == SPENDING)
      && VendorListed()
      && Amounts()
      && 0 < AsInt(amount) <= AsInt(perTxn)
      && AsInt(spent) + AsInt(amount) <= AsInt(total)
      && risk == PASS
    }
  }

  const ACTIVE := Str("ACTIVE")
  const SPENDING := Str("SPENDING")
  const PASS := Str("PASS")

  function Read(doc: Json): Reading {
    Reading(Get(doc, Path(IdentityValid)), Get(doc, Path(ExpiresAt)), Get(doc, Path(Now)),
            Get(doc, Path(AgentStatus)), Get(doc, Path(VaultStatus)), Get(doc, Path(VendorId)),
            Get(doc, Path(AllowedVendors)), Get(doc, Path(Amount)), Get(doc, Path(PerTransaction)),
            Get(doc, Path(Spent)), Get(doc, Path(Total)), Get(doc, Path(RiskStatus)))
  }

  lemma NoDenialMeansAllowed(r: Reading)
    ensures r.Denials() == {} <==> r.Allows()
  {
    var all := r.Denials();
    if all == {} {
      assert && IdentityInvalid !in all && WindowUnknown !in all && AuthorizationExpired !in all
             && AgentNotActive !in all && VaultNotSpendable !in all && VendorDenied !in all
             && AmountsUnknown !in all && OverTransactionLimit !in all && OverTaskLimit !in all
             && RiskNotPass !in all;
    }
    if r.Allows() {
      forall d: Deny ensures !r.Denied(d) {
      }
    }
  }

  /** Python's True and False count as 1 and 0 wherever a whole number is asked for. */
  function Counted(v: Json): Json { if v == Bool(true) then Int(1) else if v == Bool(false) then Int(0) else v }

  lemma BooleansCount(r: Reading)
    ensures r.Denials()
         == r.(amount := Counted(r.amount), perTxn := Counted(r.perTxn), spent := Counted(r.spent),
               total := Counted(r.total), expiresAt := Counted(r.expiresAt), now := Counted(r.now)).Denials()
  {
    var s := r.(amount := Counted(r.amount), perTxn := Counted(r.perTxn), spent := Counted(r.spent),
                total := Counted(r.total), expiresAt := Counted(r.expiresAt), now := Counted(r.now));
    CountedReads(r.amount);
    CountedReads(r.perTxn);
    CountedReads(r.spent);
    CountedReads(r.total);
    CountedReads(r.expiresAt);
    CountedReads(r.now);
    forall d: Deny ensures r.Denied(d) <==> s.Denied(d) {
    }
  }

  lemma CountedReads(v: Json)
    ensures IsInt(Counted(v)) == IsInt(v) && IsNumber(Counted(v)) == IsNumber(v)
    ensures IsInt(v) ==> AsInt(Counted(v)) == AsInt(v)
    ensures IsNumber(v) ==> AsReal(Counted(v)) == AsReal(v)
  {
  }

  /** `evaluate_transaction_policy`: collects every denial. */
  method EvaluateTransactionPolicy(doc: Json) returns (deny: seq<Deny>)
    ensures forall d :: d in deny <==> Read(doc).Denied(d)
    ensures deny == [] <==> Read(doc).Allows()
  {
    var valid := Lookup(doc, Path(IdentityValid));
    var expiresAt := Lookup(doc, Path(ExpiresAt));
    var now := Lookup(doc, Path(Now));
    var agentStatus := Lookup(doc, Path(AgentStatus));
    var vaultStatus := Lookup(doc, Path(VaultStatus));
    var vendor := Lookup(doc, Path(VendorId));
    var allowed := Lookup(doc, Path(AllowedVendors));
    var amount := Lookup(doc, Path(Amount));
    var perTxn := Lookup(doc, Path(PerTransaction));
    var spent := Lookup(doc, Path(Spent));
    var total := Lookup(doc, Path(Total));
    var risk := Lookup(doc, Path(RiskStatus));
    deny := Judge(Reading(valid, expiresAt, now, agentStatus, vaultStatus, vendor,
                          allowed, amount, perTxn, spent, total, risk));
  }

  /** The rules of the evaluator over what it read: first who may spend, then what. */
  method Judge(r: Reading) returns (deny: seq<Deny>)
    ensures forall d :: d in deny <==> r.Denied(d)
    ensures deny == [] <==> r.Allows()
  {
    var standing := StandingDenials(r);
    var spend := SpendDenials(r);
    deny := standing + spend;
    assert forall d :: d in deny <==> d in standing || d in spend;
    NoDenialMeansAllowed(r);
    assert deny == [] ==> r.Denials() == {};
    assert deny != [] ==> deny[0] in deny && deny[0] in r.Denials();
  }

  predicate AboutStanding(d: Deny) {
    d.IdentityInvalid? || d.WindowUnknown? || d.AuthorizationExpired? || d.AgentNotActive? || d.VaultNotSpendable?
  }

  method StandingDenials(r: Reading) returns (deny: seq<Deny>)
    ensures forall d :: d in deny <==> AboutStanding(d) && r.Denied(d)
  {
    deny := [];
    if r.valid != Bool(true) {
      deny := deny + [IdentityInvalid];
    }
    if !IsNumber(r.expiresAt) || !IsNumber(r.now) {
      deny := deny + [WindowUnknown];
    } else if AsReal(r.expiresAt) <= AsReal(r.now) {
      deny := deny + [AuthorizationExpired];
    }
    if r.agentStatus != ACTIVE {
      deny := deny + [AgentNotActive];
    }
    if r.vaultStatus != ACTIVE && r.vaultStatus != SPENDING {
      deny := deny + [VaultNotSpendable];
    }
  }

  method SpendDenials(r: Reading) returns (deny: seq<Deny>)
    ensures forall d :: d in deny <==> !AboutStanding(d) && r.Denied(d)
  {
    deny := [];
    if !r.vendor.Str? || !r.allowed.List? || r.vendor !in r.allowed.items {
      deny := deny + [VendorDenied];
    }
    if !IsInt(r.amount) || !IsInt(r.perTxn) || !IsInt(r.spent) || !IsInt(r.total) || AsInt(r.amount) <= 0 {
      deny := deny + [AmountsUnknown];
    } else {
      if AsInt(r.amount) > AsInt(r.perTxn) {
        deny := deny + [OverTransactionLimit];
      }
      if AsInt(r.spent) + AsInt(r.amount) > AsInt(r.total) {
        deny := deny + [OverTaskLimit];
      }
    }
    if r.risk != PASS {
      deny := deny + [RiskNotPass];
    }
  }

  // ----- The document `propose_transaction` builds -----

  function Texts(items: seq<string>): seq<Json> { seq(|items|, i requires 0 <= i < |items| => Str(items[i])) }

  function TransactionDocument(
      valid: bool, expiresAt: int, now: int, agentStatus: Json, vaultStatus: Json, allowed: seq<string>,
      perTxn: int, spent: int, total: int, vendor: string, amount: int, rulesAllow: bool): Json
  {
    Dict(map[
      "identity" := Dict(map["valid" := Bool(valid), "expires_at" := Int(expiresAt)]),
      "now" := Int(now),
      "agent" := Dict(map["status" := agentStatus]),
      "vault" := VaultSection(vaultStatus, allowed, perTxn, spent, total),
      "vendor" := Dict(map["id" := Str(vendor)]),
      "transaction" := Dict(map["amount_minor" := Int(amount)]),
      "risk" := Dict(map["policy_status" := if rulesAllow then PASS else Str("FAIL")])])
  }

  function VaultSection(status: Json, allowed: seq<string>, perTxn: int, spent: int, total: int): Json {
    Dict(map[
      "status" := status,
      "allowed_vendor_ids" := List(Texts(allowed)),
      "per_transaction_limit_minor" := Int(perTxn),
      "spent_minor" := Int(spent),
      "total_limit_minor" := Int(total)])
  }

  lemma GetTwo(doc: Json, path: seq<string>, section: Json)
    requires |path| == 2
    requires doc.Dict? && path[0] in doc.fields && doc.fields[path[0]] == section
    requires section.Dict? && path[1] in section.fields
    ensures Get(doc, path) == section.fields[path[1]]
  {
    assert path[1..] == [path[1]];
    assert Get(section, [path[1]]) == section.fields[path[1]];
  }

  lemma VaultSectionKeys(status: Json, allowed: seq<string>, perTxn: int, spent: int, total: int)
    ensures var m := VaultSection(status, allowed, perTxn, spent, total).fields;
      && "status" in m && m["status"] == status
      && "allowed_vendor_ids" in m && m["allowed_vendor_ids"] == List(Texts(allowed))
      && "per_transaction_limit_minor" in m && m["per_transaction_limit_minor"] == Int(perTxn)
      && "spent_minor" in m && m["spent_minor"] == Int(spent)
      && "total_limit_minor" in m && m["total_limit_minor"] == Int(total)
  {
    assert |"status"| == 6 && |"allowed_vendor_ids"| == 18 && |"per_transaction_limit_minor"| == 27;
    assert |"spent_minor"| == 11 && |"total_limit_minor"| == 17;
  }

  lemma DocumentKeys(
      valid: bool, expiresAt: int, now: int, agentStatus: Json, vaultStatus: Json, allowed: seq<string>,
      perTxn: int, spent: int, total: int, vendor: string, amount: int, rulesAllow: bool)
    ensures var m := TransactionDocument(valid, expiresAt, now, agentStatus, vaultStatus, allowed,
                                         perTxn, spent, total, vendor, amount, rulesAllow).fields;
      && "identity" in m && m["identity"] == Dict(map["valid" := Bool(valid), "expires_at" := Int(expiresAt)])
      && "now" in m && m["now"] == Int(now)
      && "agent" in m && m["agent"] == Dict(map["status" := agentStatus])
      && "vault" in m && m["vault"] == VaultSection(vaultStatus, allowed, perTxn, spent, total)
      && "vendor" in m && m["vendor"] == Dict(map["id" := Str(vendor)])
      && "transaction" in m && m["transaction"] == Dict(map["amount_minor" := Int(amount)])
      && "risk" in m && m["risk"] == Dict(map["policy_status" := if rulesAllow then PASS else Str("FAIL")])
  {
    assert |"identity"| == 8 && |"now"| == 3 && |"vendor"| == 6 && |"transaction"| == 11 && |"risk"| == 4;
    assert |"agent"| == 5 && "agent"[0] == 'a' && |"vault"| == 5 && "vault"[0] == 'v';
  }

  lemma ReadsVault(doc: Json, status: Json, allowed: seq<string>, perTxn: int, spent: int, total: int)
    requires doc.Dict? && "vault" in doc.fields
    requires doc.fields["vault"] == VaultSection(status, allowed, perTxn, spent, total)
    ensures Get(doc, Path(VaultStatus)) == status
    ensures Get(doc, Path(AllowedVendors)) == List(Texts(allowed))
    ensures Get(doc, Path(PerTransaction)) == Int(perTxn)
    ensures Get(doc, Path(Spent)) == Int(spent)
    ensures Get(doc, Path(Total)) == Int(total)
  {
    var section := VaultSection(status, allowed, perTxn, spent, total);
    VaultSectionKeys(status, allowed, perTxn, spent, total);
    GetTwo(doc, Path(VaultStatus), section);
    GetTwo(doc, Path(AllowedVendors), section);
    GetTwo(doc, Path(PerTransaction), section);
    GetTwo(doc, Path(Spent), section);
    GetTwo(doc, Path(Total), section);
  }

  lemma ReadsIdentity(doc: Json, valid: bool, expiresAt: int)
    requires doc.Dict? && "identity" in doc.fields
    requires doc.fields["identity"] == Dict(map["valid" := Bool(valid), "expires_at" := Int(expiresAt)])
    ensures Get(doc, Path(IdentityValid)) == Bool(valid)
    ensures Get(doc, Path(ExpiresAt)) == Int(expiresAt)
  {
    assert |"valid"| == 5 && |"expires_at"| == 10;
    GetTwo(doc, Path(IdentityValid), doc.fields["identity"]);
    GetTwo(doc, Path(ExpiresAt), doc.fields["identity"]);
  }

  lemma ReadsSingle(doc: Json, path: seq<string>, v: Json)
    requires |path| == 2 && doc.Dict? && path[0] in doc.fields
    requires doc.fields[path[0]] == Dict(map[path[1] := v])
    ensures Get(doc, path) == v
  {
    GetTwo(doc, path, doc.fields[path[0]]);
  }

  lemma ReadsRest(doc: Json, agentStatus: Json, vendor: Json, amount: Json, risk: Json, now: Json)
    requires doc.Dict?
    requires "agent" in doc.fields && doc.fields["agent"] == Dict(map["status" := agentStatus])
    requires "vendor" in doc.fields && doc.fields["vendor"] == Dict(map["id" := vendor])
    requires "transaction" in doc.fields && doc.fields["transaction"] == Dict(map["amount_minor" := amount])
    requires "risk" in doc.fields && doc.fields["risk"] == Dict(map["policy_status" := risk])
    requires "now" in doc.fields && doc.fields["now"] == now
    ensures Get(doc, Path(AgentStatus)) == agentStatus && Get(doc, Path(VendorId)) == vendor
    ensures Get(doc, Path(Amount)) == amount && Get(doc, Path(RiskStatus)) == risk
    ensures Get(doc, Path(Now)) == now
  {
    ReadsSingle(doc, Path(AgentStatus), agentStatus);
    ReadsSingle(doc, Path(VendorId), vendor);
    ReadsSingle(doc, Path(Amount), amount);
    ReadsSingle(doc, Path(RiskStatus), risk);
    assert Path(Now)[1..] == [];
    assert Get(doc, Path(Now)) == Get(doc.fields["now"], []);
  }

  /** Every field the evaluator needs is where the builder puts it. */
  lemma DocumentReadsBack(
      valid: bool, expiresAt: int, now: int, agentStatus: Json, vaultStatus: Json, allowed: seq<string>,
      perTxn: int, spent: int, total: int, vendor: string, amount: int, rulesAllow: bool)
    ensures Read(TransactionDocument(valid, expiresAt, now, agentStatus, vaultStatus, allowed,
                                     perTxn, spent, total, vendor, amount, rulesAllow))
         == Reading(Bool(valid), Int(expiresAt), Int(now), agentStatus, vaultStatus, Str(vendor),
                    List(Texts(allowed)), Int(amount), Int(perTxn), Int(spent), Int(total),
                    if rulesAllow then PASS else Str("FAIL"))
  {
    var doc := TransactionDocument(valid, expiresAt, now, agentStatus, vaultStatus, allowed,
                                   perTxn, spent, total, vendor, amount, rulesAllow);
    DocumentKeys(valid, expiresAt, now, agentStatus, vaultStatus, allowed,
                 perTxn, spent, total, vendor, amount, rulesAllow);
    ReadsRest(doc, agentStatus, Str(vendor), Int(amount), if rulesAllow then PASS else Str("FAIL"), Int(now));
    ReadsIdentity(doc, valid, expiresAt);
    ReadsVault(doc, vaultStatus, allowed, perTxn, spent, total);
  }

  // ----- Fail closed -----

  /** The type the evaluator insists on at each required field. */
  predicate WellTyped(f: Field, v: Json) {
    match f
    case IdentityValid => v.Bool?
    case ExpiresAt => IsNumber(v)
    case Now => IsNumber(v)
    case AgentStatus => v.Str?
    case VaultStatus => v.Str?
    case VendorId => v.Str?
    case AllowedVendors => v.List?
    case RiskStatus => v.Str?
    case _ => IsInt(v)
  }

  /** A document with an ill-typed or missing field is denied. */
  lemma IllTypedDenied(doc: Json, f: Field)
    requires !WellTyped(f, Get(doc, Path(f)))
    ensures !Read(doc).Allows()
  {
    assert Read(doc).At(f) == Get(doc, Path(f));
    IllTypedReading(Read(doc), f);
  }

  lemma IllTypedReading(r: Reading, f: Field)
    ensures r.Allows() ==> WellTyped(f, r.At(f))
  {
  }

  /** The document with the field at `path` deleted. */
  function Remove(doc: Json, path: seq<string>): Json
    requires path != []
    decreases |path|
  {
    if !doc.Dict? || path[0] !in doc.fields then doc
    else if |path| == 1 then Dict(doc.fields - {path[0]})
    else Dict(doc.fields[path[0] := Remove(doc.fields[path[0]], path[1..])])
  }

  lemma {:induction false} RemovedIsMissing(doc: Json, path: seq<string>)
    requires path != []
    ensures Get(Remove(doc, path), path) == Null
    decreases |path|
  {
    if doc.Dict? && path[0] in doc.fields && |path| > 1 {
      RemovedIsMissing(doc.fields[path[0]], path[1..]);
    }
  }

  /** Fail closed: whatever the document says otherwise, dropping any one required field denies it. */
  lemma MissingFieldDenied(doc: Json, f: Field)
    ensures !Read(Remove(doc, Path(f))).Allows()
  {
    RemovedIsMissing(doc, Path(f));
    IllTypedDenied(Remove(doc, Path(f)), f);
  }
}
