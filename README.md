# Campaign credit reward processor, modelled in Dafny

The campaign credit bundle plugs one reward processor into a campaign engine.
`CreditRewardProcessor` handles awards of the CREDIT kind. It reads the credit
amount from the award. It refuses a non-positive amount. It looks up the user's
credit account under the configured currency code, or `"CREDIT"` when none is
configured. It posts an increase to the ledger under the transaction number
`CAMPAIGN-<award id>-<uuid>`, with the configured remark or else the campaign's
name. It writes the transaction number into the reward's `sn` and logs the
success. If the lookup or the increase throws, it writes one error log and
re-throws the same exception, and the reward is left as it was.

The project has two modules:

- `Php` (`php.dfy`) models the two PHP built-ins the processor uses. `IntVal` is
  `intval` on a string: an optional sign, then the leading digits. `FormatInt` is
  `sprintf('%d', …)`. The module proves that `intval` reads back what `%d` prints.
- `CampaignCredit` (`credit_reward_processor.dfy`) holds the entities and the
  configuration defaults. It defines the transaction number together with an
  inverse parser, which proves that numbers from different awards or UUIDs never
  collide. `Run` gives the calls and the outcome of one `process` as a value.
  The classes are `Reward` (its `sn` field), `CallLog` (the ordered record of
  every call the processor makes on the account service, the transaction
  service, the reward and the logger) and `CreditRewardProcessor`. Its `Process`
  method updates the reward and the call log, and it is proved equal to `Run`.

The plain values stand in for the outside world:

- The two collaborators are oracles: the `Collaborators` datatype holds total
  functions from a call's arguments to its outcome (`Ok`/`Err`, or `None`/`Some`
  exception).
- The two `$_ENV` options are an explicit `Config` of two `Option<string>`s.
  `None` means unset. As with PHP's `??`, a set empty string is kept.
- The UUID that `Uuid::v4()` would draw is a `string` parameter.
- A thrown exception is a `Throwable` value, returned as `raised` (`None` means
  `process` returned normally).

## Model

| member | source | states |
|---|---|---|
| `CampaignCredit.CreditRewardProcessor.Supports` | src/Service/CreditRewardProcessor.php:45-48 | true exactly for the CREDIT award type, false for COUPON, COUPON_LOCAL and SPU_QUALIFICATION |
| `CampaignCredit.CreditRewardProcessor.GetPriority` | src/Service/CreditRewardProcessor.php:112-115 | the priority is 0 on every call |
| `CampaignCredit.CreditRewardProcessor.constructor` | src/Service/CreditRewardProcessor.php:38-43 | the processor keeps the collaborators and the call log it was given |
| `CampaignCredit.CreditRewardProcessor.Process` | src/Service/CreditRewardProcessor.php:50-110 | the exception raised, the calls appended to the log and the new `sn` of the reward are those of `Run`; `sn` becomes the transaction number on success and is unchanged otherwise |
| `CampaignCredit.Reward.SetSn` | src/Service/CreditRewardProcessor.php:86 | after the write, `sn` holds the given transaction number |
| `CampaignCredit.Run` | src/Service/CreditRewardProcessor.php:50-110 | a non-positive amount raises InvalidArgumentException("积分数量必须大于 0") with no call at all; otherwise the lookup comes first, with the configured or default currency; a failed lookup is followed only by one error log and its exception is re-raised; after a successful lookup comes the increase with the transaction number, account, amount and remark, and the run fails exactly when the increase does, with the same exception, followed only by one error log; on success the calls are exactly lookup, increase, `sn` write, one success log |
| `CampaignCredit.SuccessMakesEachCallOnce` | src/Service/CreditRewardProcessor.php:58-96 | a successful run makes one lookup, one increase, one `sn` write and one info log, and no error log |
| `CampaignCredit.FailureLogsOnceAndLeavesReward` | src/Service/CreditRewardProcessor.php:97-109 | after the amount check, a failure re-raises the exception of the collaborator that threw; it writes exactly one error log, no `sn` and no info log; it requests no increase when the lookup threw, and one when the increase threw |
| `CampaignCredit.SnIsThePostedTransactionId` | src/Service/CreditRewardProcessor.php:71-86 | an `sn` write happens only in a successful run; it writes the transaction number the increase was posted under, and that number parses back to the award id and the UUID |
| `CampaignCredit.NonPositiveValueIsRefused` | src/Service/CreditRewardProcessor.php:52-56 | an award value written as a number ≤ 0 (such as "0" or "-5", trailing text allowed) ends in InvalidArgumentException with no call |
| `CampaignCredit.PositiveValueIsPosted` | src/Service/CreditRewardProcessor.php:52-83 | an award value written as a positive number n is posted as the amount n once the lookup succeeds |
| `CampaignCredit.CurrencyCode` | src/Service/CreditRewardProcessor.php:60 | the configured DEFAULT_CREDIT_CURRENCY_CODE when set, else "CREDIT" |
| `CampaignCredit.Remark` | src/Service/CreditRewardProcessor.php:67 | the configured CAMPAIGN_AWARD_CREDIT_REMARK when set, else the campaign's name |
| `CampaignCredit.ParseTransactionIdOfTransactionId` | src/Service/CreditRewardProcessor.php:71-75 | a transaction number built from a 36-character UUID parses back to its award id and UUID |
| `CampaignCredit.TransactionIdOfParseTransactionId` | src/Service/CreditRewardProcessor.php:71-75 | every text the parser accepts is the transaction number of what it returns, with a 36-character UUID |
| `CampaignCredit.TransactionIdInjective` | src/Service/CreditRewardProcessor.php:71-75 | two transaction numbers with 36-character UUIDs are equal only when their award ids and UUIDs are |
| `CampaignCredit.FreshUuidGivesFreshTransactionId` | src/Service/CreditRewardProcessor.php:71-75 | for one award, different UUIDs give different transaction numbers |
| `Php.LeadingDigits` | src/Service/CreditRewardProcessor.php:52 | the longest digit prefix of the text: a prefix, all digits, and not followed by a digit |
| `Php.FormatNat` | src/Service/CreditRewardProcessor.php:72-73 | a nonempty digit string with no leading zero |
| `Php.FormatInt` | src/Service/CreditRewardProcessor.php:72-73 | nonempty; starts with '-' exactly when the number is negative; all digits otherwise |
| `Php.DigitsValueOfFormatNat` | src/Service/CreditRewardProcessor.php:52-73 | the digits printed for n have the value n |
| `Php.IntValOfFormatInt` | src/Service/CreditRewardProcessor.php:52-73 | `intval` of what `%d` printed for n, followed by any text that does not start with a digit, is n |
| `Php.IntValWithoutDigits` | src/Service/CreditRewardProcessor.php:52 | a value with no digit after its optional sign (such as "", "abc", "-x") reads as 0 |

## Left out

- The Symfony bundle class and the dependency-injection extension, `src/CampaignCreditBundle.php` and `src/DependencyInjection/CampaignCreditExtension.php`, are not modelled. They only register services and have no behaviour to state.
- The account service, the transaction service, the account and the campaign entities are foreign code. They are modelled only as the outcomes they give to each call.
- UUID v4 generation is random, so the UUID is a parameter. Its uniqueness across runs is not modelled. The model proves only that different UUIDs give different transaction numbers.
- Php.IntVal: models `intval` only for an optional sign followed by decimal digits, with trailing text ignored. Leading whitespace (which PHP skips), exponent forms such as "1e3" and 64-bit saturation are not modelled. A non-string award value (null or a number) is not modelled either.
- Php.FormatInt: PHP integers are modelled as unbounded, so a 64-bit award id and its wrap-around are not modelled. A null award id (which `%d` prints as 0) is not modelled.
- The log payloads are reduced to the message and the main context fields. The `user_id` entry, with its `method_exists($user, 'getId')` probe, and the exception's trace string are not modelled.
- `$_ENV` is not ambient global state in the model; it is the explicit `Config`. The two `assert(is_string(...))` debug checks are not modelled.
- Exceptions thrown by `campaign->getName()`, `setSn` or `logger->info` are not modelled, although the same catch block would handle them.
- Concurrency and duplicate postings when the caller retries are not modelled.
- The logger, the two services and the reward are observed through one ordered call log (`CallLog`). The model does not capture which object received each call beyond the kind of call.
