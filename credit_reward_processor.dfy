/** The credit reward processor of the campaign credit bundle: the adapter that
    turns a CREDIT award of a campaign into an increase on the user's credit
    account and writes the transaction number back onto the reward.

    The two collaborators (the account service and the transaction service) are
    oracles: total functions from the arguments of the call to its outcome. The
    logger, the collaborators and the reward are observed through one `CallLog`
    that records, in order, every call the processor makes on them. */
module CampaignCredit {
  import opened Php

  // ---------------------------------------------------------------------------
  // Entities
  // ---------------------------------------------------------------------------

  /** The award kinds the campaign engine dispatches on. */
  datatype AwardType = Credit | Coupon | CouponLocal | SpuQualification

  /** The principal the award is for; only used as a lookup key. */
  datatype User = User(key: nat)

  /** The credit account handle returned by the account service; never inspected. */
  datatype Account = Account(handle: nat)

  datatype Campaign = Campaign(id: int, name: string)

  /** An award owed to a user; `value` holds the credit amount as text. */
  datatype Award = Award(id: int, value: string, campaign: Campaign)

  /** A PHP exception: its class and its message. */
  datatype Throwable = Throwable(className: string, message: string)

  datatype Result<+T> = Ok(value: T) | Err(error: Throwable)

  /** The two environment options; `None` is an unset variable. PHP's `??`
      falls back only on an unset (or null) entry, so a set empty string is kept. */
  datatype Config = Config(defaultCreditCurrencyCode: Option<string>,
                           campaignAwardCreditRemark: Option<string>)

  /** What the account service and the transaction service answer to each call. */
  datatype Collaborators = Collaborators(
    getAccountByUser: (User, string) -> Result<Account>,
    increase: (string, Account, int, string) -> Option<Throwable>)

  /** The context array of the success log (the user id entry is not modelled). */
  datatype SuccessContext = SuccessContext(amount: int, currency: string, transactionId: string,
                                           campaignId: int, awardId: int, remark: string)

  /** The context array of the error log (the user id and trace entries are not modelled). */
  datatype FailureContext = FailureContext(amount: int, campaignId: int, awardId: int, exception: string)

  /** One observable call made by the processor. */
  datatype Call =
    | GetAccountByUser(user: User, currencyCode: string)
    | Increase(transactionId: string, account: Account, amount: int, remark: string)
    | SetSn(sn: string)
    | Info(message: string, success: SuccessContext)
    | Error(message: string, failure: FailureContext)

  datatype CallKind = LookupCall | IncreaseCall | SetSnCall | InfoCall | ErrorCall

  /** The calls one run of `process` makes, and the exception it ends with, if any. */
  datatype Execution = Execution(calls: seq<Call>, raised: Option<Throwable>)

  // ---------------------------------------------------------------------------
  // Constants
  // ---------------------------------------------------------------------------

  const DefaultCurrencyCode: string := "CREDIT"
  const InvalidAmountMessage: string := "积分数量必须大于 0"
  const InvalidAmount: Throwable := Throwable("InvalidArgumentException", InvalidAmountMessage)
  const SuccessMessage: string := "Credit reward processed successfully"
  const FailureMessage: string := "Failed to process credit reward"
  const TransactionPrefix: string := "CAMPAIGN-"
  /** Length of a UUID in its RFC 4122 text form. */
  const UuidLength: nat := 36

  // ---------------------------------------------------------------------------
  // Configuration defaults and the transaction number
  // ---------------------------------------------------------------------------

  /** The currency code for the account lookup: the configured one, else "CREDIT". */
  function CurrencyCode(config: Config): (code: string)
    ensures config.defaultCreditCurrencyCode.Some? ==> code == config.defaultCreditCurrencyCode.value
    ensures config.defaultCreditCurrencyCode.None? ==> code == DefaultCurrencyCode
  {
    match config.defaultCreditCurrencyCode
    case Some(configured) => configured
    case None => DefaultCurrencyCode
  }

  /** The transaction remark: the configured one, else the campaign's name. */
  function Remark(config: Config, award: Award): (remark: string)
    ensures config.campaignAwardCreditRemark.Some? ==> remark == config.campaignAwardCreditRemark.value
    ensures config.campaignAwardCreditRemark.None? ==> remark == award.campaign.name
  {
    match config.campaignAwardCreditRemark
    case Some(configured) => configured
    case None => award.campaign.name
  }

  /** `sprintf('CAMPAIGN-%d-%s', awardId, uuid)`. */
  function TransactionId(awardId: int, uuid: string): string {
    TransactionPrefix + FormatInt(awardId) + "-" + uuid
  }

  /** Reads an award id and a UUID back out of a transaction number; `None`
      when the text is not one that `TransactionId` produces. */
  function ParseTransactionId(t: string): Option<(int, string)> {
    var p := |TransactionPrefix|;
    if |t| < p + 2 + UuidLength || t[..p] != TransactionPrefix || t[|t| - UuidLength - 1] != '-' then None
    else
      var digits := t[p..|t| - UuidLength - 1];
      if FormatInt(IntVal(digits)) == digits then Some((IntVal(digits), t[|t| - UuidLength..])) else None
  }

  /** A transaction number made from a UUID in text form gives back its award id and UUID. */
  lemma ParseTransactionIdOfTransactionId(awardId: int, uuid: string)
    requires |uuid| == UuidLength
    ensures ParseTransactionId(TransactionId(awardId, uuid)) == Some((awardId, uuid))
  {
    var d := FormatInt(awardId);
    var t := TransactionId(awardId, uuid);
    var p := |TransactionPrefix|;
    assert t[..p] == TransactionPrefix;
    assert t[p..|t| - UuidLength - 1] == d;
    assert t[|t| - UuidLength..] == uuid;
    IntValOfFormatInt(awardId, []);
    assert d + [] == d;
  }

  /** Whatever `ParseTransactionId` accepts is exactly the transaction number of what it returns. */
  lemma TransactionIdOfParseTransactionId(t: string, awardId: int, uuid: string)
    requires ParseTransactionId(t) == Some((awardId, uuid))
    ensures t == TransactionId(awardId, uuid) && |uuid| == UuidLength
  {
    var p := |TransactionPrefix|;
    var k := |t| - UuidLength - 1;
    assert t == t[..p] + t[p..k] + [t[k]] + t[k + 1..];
  }

  /** Distinct (award id, UUID) pairs give distinct transaction numbers. */
  lemma TransactionIdInjective(awardId1: int, uuid1: string, awardId2: int, uuid2: string)
    requires |uuid1| == UuidLength && |uuid2| == UuidLength
    requires TransactionId(awardId1, uuid1) == TransactionId(awardId2, uuid2)
    ensures awardId1 == awardId2 && uuid1 == uuid2
  {
    ParseTransactionIdOfTransactionId(awardId1, uuid1);
    ParseTransactionIdOfTransactionId(awardId2, uuid2);
  }

  /** Two runs for the same award draw different UUIDs, so they post under
      different transaction numbers, whatever the UUIDs look like. */
  lemma FreshUuidGivesFreshTransactionId(awardId: int, uuid1: string, uuid2: string)
    requires uuid1 != uuid2
    ensures TransactionId(awardId, uuid1) != TransactionId(awardId, uuid2)
  {
    var n := |TransactionPrefix + FormatInt(awardId) + "-"|;
    assert TransactionId(awardId, uuid1)[n..] == uuid1;
    assert TransactionId(awardId, uuid2)[n..] == uuid2;
  }

  // ---------------------------------------------------------------------------
  // One run of `process`, as a value
  // ---------------------------------------------------------------------------

  function FailureLog(amount: int, award: Award, e: Throwable): Call {
    Error(FailureMessage, FailureContext(amount, award.campaign.id, award.id, e.message))
  }

  function SuccessLog(amount: int, currency: string, transactionId: string, award: Award, remark: string): Call {
    Info(SuccessMessage, SuccessContext(amount, currency, transactionId, award.campaign.id, award.id, remark))
  }

  /** The account service's answer to the one lookup `process` makes. */
  function Lookup(services: Collaborators, config: Config, user: User): Result<Account> {
    services.getAccountByUser(user, CurrencyCode(config))
  }

  /** The transaction service's answer to the one increase `process` requests. */
  function Posting(services: Collaborators, config: Config, award: Award, account: Account, uuid: string): Option<Throwable> {
    services.increase(TransactionId(award.id, uuid), account, IntVal(award.value), Remark(config, award))
  }

  /** The calls and the outcome of `process(user, award, reward)`, given what the
      collaborators answer and the UUID drawn. */
  function Run(services: Collaborators, config: Config, user: User, award: Award, uuid: string): (x: Execution)
    // The amount is checked before anything else: a non-positive amount raises
    // InvalidArgumentException and makes no call at all.
    ensures IntVal(award.value) <= 0 ==> x == Execution([], Some(InvalidAmount))
    // Otherwise the first call is the account lookup with the configured or default currency.
    ensures IntVal(award.value) > 0 ==> |x.calls| > 1 && x.calls[0] == GetAccountByUser(user, CurrencyCode(config))
    // A failed lookup is logged once and re-raised unchanged; no increase is requested.
    ensures IntVal(award.value) > 0 && Lookup(services, config, user).Err? ==>
      var e := Lookup(services, config, user).error;
      x.raised == Some(e) && x.calls[1..] == [FailureLog(IntVal(award.value), award, e)]
    // After a successful lookup comes the increase, under the transaction number, amount and remark;
    // the run fails exactly when the increase does, with the same exception.
    ensures IntVal(award.value) > 0 && Lookup(services, config, user).Ok? ==>
      var account := Lookup(services, config, user).value;
      && x.calls[1] == Increase(TransactionId(award.id, uuid), account, IntVal(award.value), Remark(config, award))
      && x.raised == Posting(services, config, award, account, uuid)
    // A failed increase is logged once after it; `sn` stays unwritten.
    ensures IntVal(award.value) > 0 && Lookup(services, config, user).Ok? && x.raised.Some? ==>
      x.calls[2..] == [FailureLog(IntVal(award.value), award, x.raised.value)]
    // On success the increase is followed by the `sn` write and one success log, and nothing else.
    ensures x.raised.None? ==>
      var tid := TransactionId(award.id, uuid);
      |x.calls| == 4 &&
      x.calls[2..] == [SetSn(tid), SuccessLog(IntVal(award.value), CurrencyCode(config), tid, award, Remark(config, award))]
  {
    var amount := IntVal(award.value);
    if amount <= 0 then Execution([], Some(InvalidAmount))
    else
      var code := CurrencyCode(config);
      var lookup := GetAccountByUser(user, code);
      match services.getAccountByUser(user, code)
      case Err(e) => Execution([lookup, FailureLog(amount, award, e)], Some(e))
      case Ok(account) =>
        var remark := Remark(config, award);
        var tid := TransactionId(award.id, uuid);
        var post := Increase(tid, account, amount, remark);
        match services.increase(tid, account, amount, remark)
        case Some(e) => Execution([lookup, post, FailureLog(amount, award, e)], Some(e))
        case None => Execution([lookup, post, SetSn(tid), SuccessLog(amount, code, tid, award, remark)], None)
  }

  // ---------------------------------------------------------------------------
  // Counting calls
  // ---------------------------------------------------------------------------

  function KindOf(c: Call): CallKind {
    match c
    case GetAccountByUser(_, _) => LookupCall
    case Increase(_, _, _, _) => IncreaseCall
    case SetSn(_) => SetSnCall
    case Info(_, _) => InfoCall
    case Error(_, _) => ErrorCall
  }

  /** How many calls of kind `k` there are in `calls`. */
  function Count(calls: seq<Call>, k: CallKind): nat {
    if calls == [] then 0
    else Count(calls[..|calls| - 1], k) + (if KindOf(calls[|calls| - 1]) == k then 1 else 0)
  }

  lemma {:induction false} CountAppend(calls: seq<Call>, more: seq<Call>, k: CallKind)
    ensures Count(calls + more, k) == Count(calls, k) + Count(more, k)
  {
    if more != [] {
      var last := |more| - 1;
      assert (calls + more)[..|calls + more| - 1] == calls + more[..last];
      CountAppend(calls, more[..last], k);
    } else {
      assert calls + more == calls;
    }
  }

  lemma CountOne(c: Call, k: CallKind)
    ensures Count([c], k) == if KindOf(c) == k then 1 else 0
  {
  }

  /** The calls of a run, split into the lookup and what follows it. */
  lemma CountAfterLookup(x: Execution, k: CallKind)
    requires |x.calls| > 0
    ensures Count(x.calls, k) == Count([x.calls[0]], k) + Count(x.calls[1..], k)
  {
    assert x.calls == [x.calls[0]] + x.calls[1..];
    CountAppend([x.calls[0]], x.calls[1..], k);
  }

  // ---------------------------------------------------------------------------
  // Properties of a run
  // ---------------------------------------------------------------------------

  /** A successful run makes each of its four calls exactly once, and logs no error. */
  lemma SuccessMakesEachCallOnce(services: Collaborators, config: Config, user: User, award: Award, uuid: string)
    requires Run(services, config, user, award, uuid).raised.None?
    ensures var x := Run(services, config, user, award, uuid);
      && Count(x.calls, LookupCall) == 1 && Count(x.calls, IncreaseCall) == 1
      && Count(x.calls, SetSnCall) == 1 && Count(x.calls, InfoCall) == 1
      && Count(x.calls, ErrorCall) == 0
  {
    var x := Run(services, config, user, award, uuid);
    forall k: CallKind ensures Count(x.calls, k) == if k == ErrorCall then 0 else 1 {
      assert x.calls == [x.calls[0]] + [x.calls[1]] + [x.calls[2]] + [x.calls[3]];
      CountAppend([x.calls[0]] + [x.calls[1]] + [x.calls[2]], [x.calls[3]], k);
      CountAppend([x.calls[0]] + [x.calls[1]], [x.calls[2]], k);
      CountAppend([x.calls[0]], [x.calls[1]], k);
      CountOne(x.calls[0], k);
      CountOne(x.calls[1], k);
      CountOne(x.calls[2], k);
      CountOne(x.calls[3], k);
    }
  }

  /** A run that fails after the amount check logs exactly one error, re-raises
      the collaborator's own exception, never writes `sn` nor logs success, and
      requests no increase when the lookup failed. */
  lemma FailureLogsOnceAndLeavesReward(services: Collaborators, config: Config, user: User, award: Award, uuid: string)
    requires IntVal(award.value) > 0
    requires Run(services, config, user, award, uuid).raised.Some?
    ensures var x := Run(services, config, user, award, uuid);
      var lookup := Lookup(services, config, user);
      && x.raised == Some(if lookup.Err? then lookup.error else Posting(services, config, award, lookup.value, uuid).value)
      && Count(x.calls, ErrorCall) == 1 && Count(x.calls, SetSnCall) == 0 && Count(x.calls, InfoCall) == 0
      && Count(x.calls, LookupCall) == 1
      && Count(x.calls, IncreaseCall) == (if lookup.Err? then 0 else 1)
  {
    var x := Run(services, config, user, award, uuid);
    forall k: CallKind
      ensures Count(x.calls, k) == Count([x.calls[0]], k) + Count(x.calls[1..], k)
      ensures Count([x.calls[0]], k) == if k == LookupCall then 1 else 0
    {
      CountAfterLookup(x, k);
      CountOne(x.calls[0], k);
    }
    var rest := x.calls[1..];
    if Lookup(services, config, user).Err? {
      forall k: CallKind ensures Count(rest, k) == if k == ErrorCall then 1 else 0 {
        CountOne(rest[0], k);
      }
    } else {
      forall k: CallKind ensures Count(rest, k) == if k == IncreaseCall || k == ErrorCall then 1 else 0 {
        assert rest == [rest[0]] + [rest[1]];
        CountAppend([rest[0]], [rest[1]], k);
        CountOne(rest[0], k);
        CountOne(rest[1], k);
      }
    }
  }

  /** `sn` is written on success only, and the value written is the transaction
      number the increase was posted under; that number carries the award id and the UUID. */
  lemma SnIsThePostedTransactionId(services: Collaborators, config: Config, user: User, award: Award, uuid: string)
    requires |uuid| == UuidLength
    ensures var x := Run(services, config, user, award, uuid);
      forall i :: 0 <= i < |x.calls| && x.calls[i].SetSn? ==>
        && x.raised.None?
        && x.calls[1].Increase? && x.calls[i].sn == x.calls[1].transactionId
        && ParseTransactionId(x.calls[i].sn) == Some((award.id, uuid))
  {
    ParseTransactionIdOfTransactionId(award.id, uuid);
  }

  /** An award value written as a non-positive number (such as "0" or "-5"),
      possibly followed by text, is refused before any call. */
  lemma NonPositiveValueIsRefused(services: Collaborators, config: Config, user: User,
                                  award: Award, uuid: string, n: int, rest: string)
    requires n <= 0 && StopsNumber(rest) && award.value == FormatInt(n) + rest
    ensures Run(services, config, user, award, uuid) == Execution([], Some(InvalidAmount))
  {
    IntValOfFormatInt(n, rest);
  }

  /** An award value written as a positive number is the amount posted. */
  lemma PositiveValueIsPosted(services: Collaborators, config: Config, user: User,
                              award: Award, uuid: string, n: int, rest: string)
    requires n > 0 && StopsNumber(rest) && award.value == FormatInt(n) + rest
    requires Lookup(services, config, user).Ok?
    ensures var x := Run(services, config, user, award, uuid);
      |x.calls| > 1 && x.calls[1].Increase? && x.calls[1].amount == n
  {
    IntValOfFormatInt(n, rest);
  }

  // ---------------------------------------------------------------------------
  // The objects `process` works on
  // ---------------------------------------------------------------------------

  /** The reward record; the processor writes only its `sn`. */
  class Reward {
    var sn: Option<string>

    constructor (sn: Option<string>)
      ensures this.sn == sn
    {
      this.sn := sn;
    }

    method SetSn(sn: string)
      modifies this
      ensures this.sn == Some(sn)
    {
      this.sn := Some(sn);
    }
  }

  /** Every call the processor makes on its collaborators, on the reward and on the logger, in order. */
  class CallLog {
    var calls: seq<Call>

    constructor ()
      ensures calls == []
    {
      calls := [];
    }

    method Record(c: Call)
      modifies this
      ensures calls == old(calls) + [c]
    {
      calls := calls + [c];
    }
  }

  class CreditRewardProcessor {
    const services: Collaborators
    const log: CallLog

    constructor (services: Collaborators, log: CallLog)
      ensures this.services == services && this.log == log
    {
      this.services := services;
      this.log := log;
    }

    /** The processor handles CREDIT awards and no other kind. */
    function Supports(t: AwardType): (r: bool)
      ensures r <==> t == Credit
    {
      match t
      case Credit => true
      case Coupon | CouponLocal | SpuQualification => false
    }

    /** The processor's rank among processors for the same award kind. */
    function GetPriority(): (p: int)
      ensures p == 0
    {
      0
    }

    /** Grants the award: checks the amount, looks up the account, posts the
        increase, writes the transaction number onto the reward and logs; any
        collaborator exception is logged and re-raised. */
    method Process(config: Config, user: User, award: Award, reward: Reward, uuid: string)
      returns (raised: Option<Throwable>)
      modifies reward, log
      ensures var x := Run(services, config, user, award, uuid);
        && raised == x.raised
        && log.calls == old(log.calls) + x.calls
        && reward.sn == (if x.raised.None? then Some(TransactionId(award.id, uuid)) else old(reward.sn))
    {
      var amount := IntVal(award.value);
      if amount <= 0 {
        return Some(InvalidAmount);
      }

      var code := CurrencyCode(config);
      log.Record(GetAccountByUser(user, code));
      var lookup := services.getAccountByUser(user, code);
      if lookup.Err? {
        log.Record(FailureLog(amount, award, lookup.error));
        return Some(lookup.error);
      }

      var remark := Remark(config, award);
      var tid := TransactionId(award.id, uuid);
      log.Record(Increase(tid, lookup.value, amount, remark));
      var posted := services.increase(tid, lookup.value, amount, remark);
      if posted.Some? {
        log.Record(FailureLog(amount, award, posted.value));
        return posted;
      }

      reward.SetSn(tid);
      log.Record(SetSn(tid));
      log.Record(SuccessLog(amount, code, tid, award, remark));
      return None;
    }
  }
}
