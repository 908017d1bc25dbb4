/** The immutable asset records (src/models/assets.ts): liquid assets
    (savings, checking accounts) and fixed assets (property, cars) with an
    appreciation rate. Construction rejects a negative amount; `with` builds
    a new record through the same construction; the JSON form is a record of
    optional fields tagged with the asset kind. */
module Assets {
  import opened Wrappers

  /** A calendar month; its format is not part of this model. */
  type Month = string

  datatype LiquidAsset = LiquidAsset(
    id: string,
    name: string,
    amount: real,
    wealthTaxId: Option<string>,
    capitalGainsTaxId: Option<string>)

  datatype FixedAsset = FixedAsset(
    id: string,
    name: string,
    amount: real,
    annualInterestRate: real,
    liquidationDate: Option<Month>,
    wealthTaxId: Option<string>,
    capitalGainsTaxId: Option<string>)

  datatype CapitalAccount = Liquid(liquid: LiquidAsset) | Fixed(fixed: FixedAsset)

  const LiquidNegativeAmount := "LiquidAsset amount cannot be negative"
  const FixedNegativeAmount := "FixedAsset amount cannot be negative"

  // ---------------------------------------------------------------------------
  // Construction
  // ---------------------------------------------------------------------------

  /** The `LiquidAsset` constructor: fails on a negative amount, otherwise
      holds exactly the given fields. */
  function NewLiquidAsset(id: string, name: string, amount: real,
                          wealthTaxId: Option<string>, capitalGainsTaxId: Option<string>): (r: Result<LiquidAsset, string>)
    ensures r.Success? <==> amount >= 0.0
    ensures r.Failure? ==> r.error == LiquidNegativeAmount
    ensures r.Success? ==> r.value.id == id && r.value.name == name && r.value.amount == amount &&
                           r.value.wealthTaxId == wealthTaxId && r.value.capitalGainsTaxId == capitalGainsTaxId
  {
    if amount < 0.0 then Failure(LiquidNegativeAmount)
    else Success(LiquidAsset(id, name, amount, wealthTaxId, capitalGainsTaxId))
  }

  /** The `FixedAsset` constructor: fails on a negative amount (a negative
      rate is allowed: depreciation), otherwise holds exactly the given fields. */
  function NewFixedAsset(id: string, name: string, amount: real, annualInterestRate: real,
                         liquidationDate: Option<Month>,
                         wealthTaxId: Option<string>, capitalGainsTaxId: Option<string>): (r: Result<FixedAsset, string>)
    ensures r.Success? <==> amount >= 0.0
    ensures r.Failure? ==> r.error == FixedNegativeAmount
    ensures r.Success? ==> r.value.id == id && r.value.name == name && r.value.amount == amount &&
                           r.value.annualInterestRate == annualInterestRate &&
                           r.value.liquidationDate == liquidationDate &&
                           r.value.wealthTaxId == wealthTaxId && r.value.capitalGainsTaxId == capitalGainsTaxId
  {
    if amount < 0.0 then Failure(FixedNegativeAmount)
    else Success(FixedAsset(id, name, amount, annualInterestRate, liquidationDate, wealthTaxId, capitalGainsTaxId))
  }

  /** What the constructors guarantee about every record they produce. */
  predicate ValidLiquid(a: LiquidAsset)
  {
    a.amount >= 0.0
  }

  predicate ValidFixed(a: FixedAsset)
  {
    a.amount >= 0.0
  }

  // ---------------------------------------------------------------------------
  // with
  // ---------------------------------------------------------------------------

  /** The fields `with` accepts; `None` means the field is not supplied. */
  datatype LiquidUpdates = LiquidUpdates(
    name: Option<string>,
    amount: Option<real>,
    wealthTaxId: Option<string>,
    capitalGainsTaxId: Option<string>)

  datatype FixedUpdates = FixedUpdates(
    name: Option<string>,
    amount: Option<real>,
    annualInterestRate: Option<real>,
    liquidationDate: Option<Month>,
    wealthTaxId: Option<string>,
    capitalGainsTaxId: Option<string>)

  const NoLiquidUpdates := LiquidUpdates(None, None, None, None)
  const NoFixedUpdates := FixedUpdates(None, None, None, None, None, None)

  /** A supplied value, or the current one. */
  function Override<T>(update: Option<T>, current: T): (r: T)
    ensures update.None? ==> r == current
    ensures update.Some? ==> r == update.value
  {
    if update.Some? then update.value else current
  }

  /** An optional field: a supplied value, or the current one (which may
      itself be absent). */
  function OverrideOptional<T>(update: Option<T>, current: Option<T>): (r: Option<T>)
    ensures update.None? ==> r == current
    ensures update.Some? ==> r == update
    ensures current.Some? ==> r.Some?
  {
    if update.Some? then update else current
  }

  /** `LiquidAsset.with`: a new record through the constructor with the same
      id, each supplied field replacing the old one. */
  function WithLiquid(a: LiquidAsset, updates: LiquidUpdates): (r: Result<LiquidAsset, string>)
    ensures r.Success? <==> Override(updates.amount, a.amount) >= 0.0
    ensures r.Success? ==> r.value.id == a.id
    ensures r.Success? && updates.name.None? ==> r.value.name == a.name
    ensures r.Success? && updates.name.Some? ==> r.value.name == updates.name.value
    ensures r.Success? && updates.amount.None? ==> r.value.amount == a.amount
    ensures r.Success? && updates.amount.Some? ==> r.value.amount == updates.amount.value
    ensures r.Success? && updates.wealthTaxId.None? ==> r.value.wealthTaxId == a.wealthTaxId
    ensures r.Success? && updates.wealthTaxId.Some? ==> r.value.wealthTaxId == updates.wealthTaxId
    ensures r.Success? && updates.capitalGainsTaxId.None? ==> r.value.capitalGainsTaxId == a.capitalGainsTaxId
    ensures r.Success? && updates.capitalGainsTaxId.Some? ==> r.value.capitalGainsTaxId == updates.capitalGainsTaxId
    ensures r.Success? && a.wealthTaxId.Some? ==> r.value.wealthTaxId.Some?
    ensures r.Success? && a.capitalGainsTaxId.Some? ==> r.value.capitalGainsTaxId.Some?
  {
    NewLiquidAsset(a.id,
                   Override(updates.name, a.name),
                   Override(updates.amount, a.amount),
                   OverrideOptional(updates.wealthTaxId, a.wealthTaxId),
                   OverrideOptional(updates.capitalGainsTaxId, a.capitalGainsTaxId))
  }

  /** `FixedAsset.with`: a new record through the constructor with the same
      id, each supplied field replacing the old one. */
  function WithFixed(a: FixedAsset, updates: FixedUpdates): (r: Result<FixedAsset, string>)
    ensures r.Success? <==> Override(updates.amount, a.amount) >= 0.0
    ensures r.Success? ==> r.value.id == a.id
    ensures r.Success? && updates.name.None? ==> r.value.name == a.name
    ensures r.Success? && updates.name.Some? ==> r.value.name == updates.name.value
    ensures r.Success? && updates.amount.None? ==> r.value.amount == a.amount
    ensures r.Success? && updates.amount.Some? ==> r.value.amount == updates.amount.value
    ensures r.Success? && updates.annualInterestRate.None? ==> r.value.annualInterestRate == a.annualInterestRate
    ensures r.Success? && updates.annualInterestRate.Some? ==>
      r.value.annualInterestRate == updates.annualInterestRate.value
    ensures r.Success? && updates.liquidationDate.None? ==> r.value.liquidationDate == a.liquidationDate
    ensures r.Success? && updates.liquidationDate.Some? ==> r.value.liquidationDate == updates.liquidationDate
    ensures r.Success? && updates.wealthTaxId.None? ==> r.value.wealthTaxId == a.wealthTaxId
    ensures r.Success? && updates.wealthTaxId.Some? ==> r.value.wealthTaxId == updates.wealthTaxId
    ensures r.Success? && updates.capitalGainsTaxId.None? ==> r.value.capitalGainsTaxId == a.capitalGainsTaxId
    ensures r.Success? && updates.capitalGainsTaxId.Some? ==> r.value.capitalGainsTaxId == updates.capitalGainsTaxId
    ensures r.Success? && a.liquidationDate.Some? ==> r.value.liquidationDate.Some?
    ensures r.Success? && a.wealthTaxId.Some? ==> r.value.wealthTaxId.Some?
    ensures r.Success? && a.capitalGainsTaxId.Some? ==> r.value.capitalGainsTaxId.Some?
  {
    NewFixedAsset(a.id,
                  Override(updates.name, a.name),
                  Override(updates.amount, a.amount),
                  Override(updates.annualInterestRate, a.annualInterestRate),
                  OverrideOptional(updates.liquidationDate, a.liquidationDate),
                  OverrideOptional(updates.wealthTaxId, a.wealthTaxId),
                  OverrideOptional(updates.capitalGainsTaxId, a.capitalGainsTaxId))
  }

  /** Supplying nothing gives back the same record. */
  lemma WithNothingIsIdentityLiquid(a: LiquidAsset)
    requires ValidLiquid(a)
    ensures WithLiquid(a, NoLiquidUpdates) == Success(a)
  {
  }

  lemma WithNothingIsIdentityFixed(f: FixedAsset)
    requires ValidFixed(f)
    ensures WithFixed(f, NoFixedUpdates) == Success(f)
  {
  }

  /** An update that leaves the amount alone always succeeds on a valid
      record; a supplied amount succeeds exactly when it is non-negative
      (0 included). */
  lemma WithAmountValidation(a: LiquidAsset, updates: LiquidUpdates)
    requires ValidLiquid(a)
    ensures updates.amount.None? ==> WithLiquid(a, updates).Success?
    ensures updates.amount.Some? ==>
      (WithLiquid(a, updates).Success? <==> updates.amount.value >= 0.0)
    ensures updates.amount == Some(0.0) ==> WithLiquid(a, updates).value.amount == 0.0
  {
  }

  /** Later updates override earlier ones: updating twice is updating once
      with the second update laid over the first. */
  function MergeLiquid(first: LiquidUpdates, second: LiquidUpdates): LiquidUpdates
  {
    LiquidUpdates(OverrideOptional(second.name, first.name),
                  OverrideOptional(second.amount, first.amount),
                  OverrideOptional(second.wealthTaxId, first.wealthTaxId),
                  OverrideOptional(second.capitalGainsTaxId, first.capitalGainsTaxId))
  }

  function MergeFixed(first: FixedUpdates, second: FixedUpdates): FixedUpdates
  {
    FixedUpdates(OverrideOptional(second.name, first.name),
                 OverrideOptional(second.amount, first.amount),
                 OverrideOptional(second.annualInterestRate, first.annualInterestRate),
                 OverrideOptional(second.liquidationDate, first.liquidationDate),
                 OverrideOptional(second.wealthTaxId, first.wealthTaxId),
                 OverrideOptional(second.capitalGainsTaxId, first.capitalGainsTaxId))
  }

  lemma WithComposesLiquid(a: LiquidAsset, u1: LiquidUpdates, u2: LiquidUpdates)
    ensures WithLiquid(a, u1).Success? ==>
      WithLiquid(WithLiquid(a, u1).value, u2) == WithLiquid(a, MergeLiquid(u1, u2))
  {
  }

  lemma WithComposesFixed(f: FixedAsset, v1: FixedUpdates, v2: FixedUpdates)
    ensures WithFixed(f, v1).Success? ==>
      WithFixed(WithFixed(f, v1).value, v2) == WithFixed(f, MergeFixed(v1, v2))
  {
  }

  // ---------------------------------------------------------------------------
  // JSON form
  // ---------------------------------------------------------------------------

  /** A stored asset: every field may be missing; `assetType` is the tag
      written for older readers. */
  datatype AssetJson = AssetJson(
    id: Option<string>,
    name: Option<string>,
    amount: Option<real>,
    annualInterestRate: Option<real>,
    liquidationDate: Option<Month>,
    wealthTaxId: Option<string>,
    capitalGainsTaxId: Option<string>,
    assetType: Option<string>)

  const LiquidTag := "liquid"
  const FixedTag := "fixed"

  /** `LiquidAsset.toJSON`. */
  function LiquidToJson(a: LiquidAsset): (r: AssetJson)
    ensures r.assetType == Some(LiquidTag)
    ensures r.annualInterestRate.None? && r.liquidationDate.None?
  {
    AssetJson(Some(a.id), Some(a.name), Some(a.amount), None, None,
              a.wealthTaxId, a.capitalGainsTaxId, Some(LiquidTag))
  }

  /** `FixedAsset.toJSON`. */
  function FixedToJson(a: FixedAsset): (r: AssetJson)
    ensures r.assetType == Some(FixedTag)
    ensures r.liquidationDate == a.liquidationDate
  {
    AssetJson(Some(a.id), Some(a.name), Some(a.amount), Some(a.annualInterestRate), a.liquidationDate,
              a.wealthTaxId, a.capitalGainsTaxId, Some(FixedTag))
  }

  /** JavaScript `x || 0` on an optional number. */
  function NumberOrZero(x: Option<real>): (r: real)
    ensures x.Some? && x.value != 0.0 ==> r == x.value
    ensures x.None? || x.value == 0.0 ==> r == 0.0
  {
    if x.Some? then x.value else 0.0
  }

  /** JavaScript `x || fallback` on an optional string. */
  function StringOr(x: Option<string>, fallback: string): (r: string)
    ensures Present(x) ==> r == x.value
    ensures !Present(x) ==> r == fallback
  {
    if Present(x) then x.value else fallback
  }

  /** `LiquidAsset.fromJSON`. `freshId` is the identifier the source would
      draw at random when the stored id is missing or empty. A missing name
      becomes empty and a missing amount zero; a negative amount fails as in
      construction. Other fields and the tag are not consulted. */
  function LiquidFromJson(data: AssetJson, freshId: string): (r: Result<LiquidAsset, string>)
    ensures r.Success? <==> NumberOrZero(data.amount) >= 0.0
    ensures r.Success? ==> r.value.id == StringOr(data.id, freshId)
    ensures r.Success? && (Present(data.id) || freshId != "") ==> r.value.id != ""
    ensures r.Success? ==> r.value.name == StringOr(data.name, "") && r.value.amount == NumberOrZero(data.amount)
    ensures r.Success? ==> r.value.wealthTaxId == data.wealthTaxId && r.value.capitalGainsTaxId == data.capitalGainsTaxId
  {
    NewLiquidAsset(StringOr(data.id, freshId), StringOr(data.name, ""), NumberOrZero(data.amount),
                   data.wealthTaxId, data.capitalGainsTaxId)
  }

  /** `FixedAsset.fromJSON`: as for liquid assets, with a missing rate
      becoming zero and the liquidation month carried over as stored. */
  function FixedFromJson(data: AssetJson, freshId: string): (r: Result<FixedAsset, string>)
    ensures r.Success? <==> NumberOrZero(data.amount) >= 0.0
    ensures r.Success? ==> r.value.id == StringOr(data.id, freshId)
    ensures r.Success? ==> r.value.name == StringOr(data.name, "") && r.value.amount == NumberOrZero(data.amount)
    ensures r.Success? ==> r.value.annualInterestRate == NumberOrZero(data.annualInterestRate)
    ensures r.Success? ==> r.value.liquidationDate == data.liquidationDate &&
                           r.value.wealthTaxId == data.wealthTaxId && r.value.capitalGainsTaxId == data.capitalGainsTaxId
  {
    NewFixedAsset(StringOr(data.id, freshId), StringOr(data.name, ""), NumberOrZero(data.amount),
                  NumberOrZero(data.annualInterestRate), data.liquidationDate,
                  data.wealthTaxId, data.capitalGainsTaxId)
  }

  /** Reading back what was written reproduces every field of a valid record
      with a non-empty id, whatever fresh id would have been drawn. */
  lemma JsonRoundTripLiquid(a: LiquidAsset, freshId: string)
    requires ValidLiquid(a) && a.id != ""
    ensures LiquidFromJson(LiquidToJson(a), freshId) == Success(a)
  {
  }

  lemma JsonRoundTripFixed(f: FixedAsset, freshId: string)
    requires ValidFixed(f) && f.id != ""
    ensures FixedFromJson(FixedToJson(f), freshId) == Success(f)
  {
  }

  /** A record with an empty id is read back with the fresh id instead. */
  lemma JsonEmptyIdReplaced(a: LiquidAsset, freshId: string)
    requires ValidLiquid(a) && a.id == ""
    ensures LiquidFromJson(LiquidToJson(a), freshId) == Success(a.(id := freshId))
  {
  }

  /** Every record a reader produces is valid, and writing it and reading
      it again changes nothing once it has a non-empty id. */
  lemma JsonReadIsStable(data: AssetJson, freshId: string)
    requires freshId != ""
    ensures LiquidFromJson(data, freshId).Success? ==>
      var a := LiquidFromJson(data, freshId).value;
      ValidLiquid(a) && LiquidFromJson(LiquidToJson(a), freshId) == Success(a)
    ensures FixedFromJson(data, freshId).Success? ==>
      var f := FixedFromJson(data, freshId).value;
      ValidFixed(f) && FixedFromJson(FixedToJson(f), freshId) == Success(f)
  {
    if LiquidFromJson(data, freshId).Success? {
      JsonRoundTripLiquid(LiquidFromJson(data, freshId).value, freshId);
    }
    if FixedFromJson(data, freshId).Success? {
      JsonRoundTripFixed(FixedFromJson(data, freshId).value, freshId);
    }
  }

  // ---------------------------------------------------------------------------
  // Type guards
  // ---------------------------------------------------------------------------

  function IsLiquidAsset(account: CapitalAccount): bool
  {
    account.Liquid?
  }

  function IsFixedAsset(account: CapitalAccount): bool
  {
    account.Fixed?
  }

  /** Every capital account is exactly one of the two kinds. */
  lemma ExactlyOneKind(account: CapitalAccount)
    ensures IsLiquidAsset(account) != IsFixedAsset(account)
  {
  }
}
