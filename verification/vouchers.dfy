/** Discount vouchers: the stored record (src/app/api/vouchers/schema.ts),
    their creation (src/app/api/vouchers/vouchers_create/route.ts), and the
    read-only check a checkout runs on a code and an e-mail
    (src/app/api/vouchers/validate_voucher/route.ts). */
module Vouchers {
  import opened Common

  /** A stored voucher. `allowedEmails` lists who may redeem a special
      voucher; the schema defaults it to the empty list. */
  datatype Voucher = Voucher(
    id: Id,
    code: string,
    description: string,
    discountAmount: real,
    isSpecial: bool,
    allowedEmails: seq<string>,
    createdAt: Time)

  const DEFAULT_IS_SPECIAL: bool := false

  /** The schema: `code` and `description` are required (non-empty) strings. */
  predicate Valid(v: Voucher) {
    v.code != "" && v.description != ""
  }

  /** The unique index on `code`. */
  predicate CodesUnique(vouchers: seq<Voucher>) {
    forall i, j :: 0 <= i < |vouchers| && 0 <= j < |vouchers| && i != j ==> vouchers[i].code != vouchers[j].code
  }

  /** `Voucher.findOne({ code })`. */
  function FindByCode(vouchers: seq<Voucher>, code: string): Option<nat> {
    FindFirst(vouchers, (v: Voucher) => v.code == code)
  }

  /** The identifier of a stored voucher. */
  function VoucherId(x: Voucher): Id {
    x.id
  }

  /** The JSON body of a voucher creation. */
  datatype VoucherRequest = VoucherRequest(
    code: Option<string>,
    description: Option<string>,
    discountAmount: Option<real>,
    isSpecial: Option<bool>,
    allowedEmails: Option<seq<string>>)

  datatype VoucherError = MissingFields | Failed | MissingParameter | UnknownCode | NotAllowed

  /** `isSpecial ? allowedEmails || [] : []`: only a special voucher keeps a
      list, and a special voucher without one gets the empty list. */
  function AllowList(isSpecial: Option<bool>, emails: Option<seq<string>>): (r: seq<string>)
    ensures isSpecial != Some(true) ==> r == []
    ensures isSpecial == Some(true) ==> r == emails.GetOr([])
  {
    if isSpecial == Some(true) then emails.GetOr([]) else []
  }

  /** POST /api/vouchers/vouchers_create. A zero discount counts as missing;
      a duplicate code is refused by the unique index (500). */
  function CreateVoucher(vouchers: seq<Voucher>, req: VoucherRequest, now: Time)
    : (h: Handled<Voucher, VoucherError, seq<Voucher>>)
    ensures h.reply.Err? ==> h.store == vouchers
    ensures h.reply == Err(BAD_REQUEST, MissingFields) <==>
      !(Truthy(req.code) && Truthy(req.description) && TruthyNumber(req.discountAmount))
    ensures h.reply.Ok? <==>
      Truthy(req.code) && Truthy(req.description) && TruthyNumber(req.discountAmount)
      && FindByCode(vouchers, req.code.value).None?
    ensures (Truthy(req.code) && Truthy(req.description) && TruthyNumber(req.discountAmount)
             && FindByCode(vouchers, req.code.value).Some?) ==>
      h.reply == Err(SERVER_ERROR, Failed)
    ensures h.reply.Ok? ==>
      var v := h.reply.body;
      && h.reply.code == CREATED && h.store == vouchers + [v] && Valid(v)
      && Some(v.code) == req.code && Some(v.description) == req.description
      && Some(v.discountAmount) == req.discountAmount
      && v.isSpecial == req.isSpecial.GetOr(DEFAULT_IS_SPECIAL)
      && v.allowedEmails == AllowList(req.isSpecial, req.allowedEmails)
      && v.createdAt == now
  {
    if !Truthy(req.code) || !Truthy(req.description) || !TruthyNumber(req.discountAmount) then
      Handled(Err(BAD_REQUEST, MissingFields), vouchers)
    else if FindByCode(vouchers, req.code.value).Some? then Handled(Err(SERVER_ERROR, Failed), vouchers)
    else
      var v := Voucher(FreshId(vouchers, VoucherId), req.code.value, req.description.value, req.discountAmount.value,
                       req.isSpecial.GetOr(DEFAULT_IS_SPECIAL), AllowList(req.isSpecial, req.allowedEmails), now);
      Handled(Ok(CREATED, v), vouchers + [v])
  }

  /** Creation keeps voucher codes unique. */
  lemma CreateKeepsCodesUnique(vouchers: seq<Voucher>, req: VoucherRequest, now: Time)
    requires CodesUnique(vouchers)
    ensures CodesUnique(CreateVoucher(vouchers, req, now).store)
  {
  }

  /** Only the truthiness of the discount is checked: a negative discount
      is accepted and stored. */
  lemma NegativeDiscountIsAccepted(vouchers: seq<Voucher>, code: string, description: string, now: Time)
    requires code != "" && description != "" && FindByCode(vouchers, code).None?
    ensures var h := CreateVoucher(vouchers, VoucherRequest(Some(code), Some(description), Some(-5.0), None, None), now);
      h.reply.Ok? && h.reply.body.discountAmount == -5.0
  {
  }

  /** What a successful check returns: the matched voucher's own fields. */
  datatype Grant = Grant(code: string, discountAmount: real, description: string)

  /** GET /api/vouchers/validate_voucher. It only reads the store. The
      checks run in order: both parameters present, the code known, then
      the allow-list of a special voucher (exact string membership). */
  function ValidateVoucher(vouchers: seq<Voucher>, code: Option<string>, email: Option<string>)
    : (r: Reply<Grant, VoucherError>)
    ensures r == Err(BAD_REQUEST, MissingParameter) <==> !(Truthy(code) && Truthy(email))
    ensures r == Err(NOT_FOUND, UnknownCode) <==>
      Truthy(code) && Truthy(email) && FindByCode(vouchers, code.value).None?
    ensures r == Err(FORBIDDEN, NotAllowed) <==>
      Truthy(code) && Truthy(email) && FindByCode(vouchers, code.value).Some?
      && var v := vouchers[FindByCode(vouchers, code.value).value];
         v.isSpecial && email.value !in v.allowedEmails
    ensures r.Ok? ==>
      && Truthy(code) && Truthy(email) && FindByCode(vouchers, code.value).Some?
      && var v := vouchers[FindByCode(vouchers, code.value).value];
      && (!v.isSpecial || email.value in v.allowedEmails)
      && r == Ok(OK, Grant(v.code, v.discountAmount, v.description))
      && v.code == code.value
  {
    if !Truthy(code) || !Truthy(email) then Err(BAD_REQUEST, MissingParameter)
    else
      match FindByCode(vouchers, code.value)
      case None => Err(NOT_FOUND, UnknownCode)
      case Some(i) =>
        var v := vouchers[i];
        if v.isSpecial && email.value !in v.allowedEmails then Err(FORBIDDEN, NotAllowed)
        else Ok(OK, Grant(v.code, v.discountAmount, v.description))
  }

  /** A non-special voucher validates for any e-mail. */
  lemma OrdinaryVoucherIsOpenToAll(vouchers: seq<Voucher>, code: string, email: string)
    requires code != "" && email != ""
    requires FindByCode(vouchers, code).Some? && !vouchers[FindByCode(vouchers, code).value].isSpecial
    ensures ValidateVoucher(vouchers, Some(code), Some(email)).Ok?
  {
  }

  /** A voucher just created validates with its own code, returning what
      was submitted — for any e-mail when it is ordinary, and exactly for
      the listed e-mails when it is special. */
  lemma CreatedVoucherValidates(vouchers: seq<Voucher>, req: VoucherRequest, now: Time, email: string)
    requires CreateVoucher(vouchers, req, now).reply.Ok?
    requires email != ""
    ensures var r := ValidateVoucher(CreateVoucher(vouchers, req, now).store, req.code, Some(email));
      && (r.Ok? <==> req.isSpecial != Some(true) || email in req.allowedEmails.GetOr([]))
      && (r.Ok? ==> r.body == Grant(req.code.value, req.discountAmount.value, req.description.value))
      && (r.Err? ==> r == Err(FORBIDDEN, NotAllowed))
  {
    var v := CreateVoucher(vouchers, req, now).reply.body;
    FindFirstAppend(vouchers, v, (w: Voucher) => w.code == req.code.value);
  }

  /** A special voucher created without a list can be redeemed by nobody. */
  lemma SpecialWithoutListIsClosed(vouchers: seq<Voucher>, req: VoucherRequest, now: Time, email: string)
    requires CreateVoucher(vouchers, req, now).reply.Ok?
    requires req.isSpecial == Some(true) && req.allowedEmails.None?
    ensures ValidateVoucher(CreateVoucher(vouchers, req, now).store, req.code, Some(email)).Err?
  {
    var v := CreateVoucher(vouchers, req, now).reply.body;
    FindFirstAppend(vouchers, v, (w: Voucher) => w.code == req.code.value);
  }
}
