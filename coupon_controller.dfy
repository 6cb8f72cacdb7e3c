/** The coupon admin handlers: create a coupon with defaults for the amounts and
    the usage limit, switch a coupon between active and inactive, delete one. */
module CouponController {
  import opened Common
  import opened Text
  import opened CouponModel
  import opened Store

  /** `x || d` on an optional number: an absent value and 0 both give the default. */
  function OrDefault(x: Option<real>, d: real): (r: real)
    ensures x.None? || x.value == 0.0 ==> r == d
    ensures x.Some? && x.value != 0.0 ==> r == x.value
  {
    if x.None? || x.value == 0.0 then d else x.value
  }

  /** `usageLimit || 1`. */
  function LimitOrOne(x: Option<int>): (r: int)
    ensures x.None? || x.value == 0 ==> r == 1
    ensures x.Some? && x.value != 0 ==> r == x.value
  {
    if x.None? || x.value == 0 then 1 else x.value
  }

  /** The request of createCoupon; `code` is "" when absent. */
  datatype CouponRequest = CouponRequest(
    code: string,
    discountPercentage: Option<real>,
    minPurchase: Option<real>,
    maxPurchase: Option<real>,
    usageLimit: Option<int>)

  /** The document createCoupon hands to `Coupon.create`, after the schema's
      setters: the code upper-cased (by the handler and again by the setter)
      and trimmed, the defaults, always 'active', no use counted yet. */
  function NewCoupon(req: CouponRequest, pct: real): (c: Coupon)
    ensures c.code == NormaliseCode(req.code) && c.discountPercentage == pct
    ensures c.minPurchase == OrDefault(req.minPurchase, 0.0)
    ensures c.maxPurchase == OrDefault(req.maxPurchase, MaxSafeInteger)
    ensures c.usageLimit == LimitOrOne(req.usageLimit)
    ensures c.status == "active" && c.usedCount == 0
  {
    UpperIdempotent(req.code);
    WithSetters(Coupon(Upper(req.code), pct, OrDefault(req.minPurchase, 0.0),
                       OrDefault(req.maxPurchase, MaxSafeInteger), "active", LimitOrOne(req.usageLimit), 0))
  }

  /** What the schema's validators demand of a new coupon, in terms of the
      request: a code that is not blank (the setters would leave it empty), a percentage in [0, 100] and a usage
      limit of at least one (the other defaults always pass). */
  predicate Creatable(req: CouponRequest, pct: real) {
    && !Blank(req.code)
    && 0.0 <= pct <= 100.0
    && LimitOrOne(req.usageLimit) >= 1
  }

  lemma CreatableIffValid(req: CouponRequest, pct: real)
    ensures Creatable(req, pct) <==> ValidCoupon(NewCoupon(req, pct))
  {
    NormaliseCodeShape(req.code);
    NormalisedEmptyIffBlank(req.code);
  }

  /** Upper-casing twice is upper-casing once. */
  lemma UpperIdempotent(s: string)
    ensures Upper(Upper(s)) == Upper(s)
  {
    forall k | 0 <= k < |s| ensures Upper(Upper(s))[k] == Upper(s)[k] {
      assert Upper(s)[k] == UpperChar(s[k]);
    }
  }

  /** createCoupon on the coupon store.  The duplicate check filters on the
      upper-cased code, which the code setters also trim. */
  function CreateOn(coupons: map<Id, Coupon>, nextId: nat, req: CouponRequest)
    : (Reply<Coupon>, map<Id, Coupon>, nat)
  {
    if req.code == "" || req.discountPercentage.None? then
      (Fail(400, "Code and discount percentage are required"), coupons, nextId)
    else if exists a :: a in coupons && coupons[a].code == NormaliseCode(req.code) then
      (Fail(400, "Coupon code already exists"), coupons, nextId)
    else
      var pct := req.discountPercentage.value;
      var c := NewCoupon(req, pct);
      if !Creatable(req, pct) then (Fail(500, "Failed to create coupon"), coupons, nextId)
      else Created(coupons, nextId, c)
  }

  /** The 201 reply and the store with `c` under the next id. */
  function Created(coupons: map<Id, Coupon>, nextId: nat, c: Coupon): (r: (Reply<Coupon>, map<Id, Coupon>, nat))
    ensures r.0 == Ok(201, "Coupon created successfully", c)
    ensures r.1 == coupons[nextId := c] && r.2 == nextId + 1
  {
    (Ok(201, "Coupon created successfully", c), coupons[nextId := c], nextId + 1)
  }

  /** `createCoupon`. */
  method CreateCoupon(db: Database, req: CouponRequest) returns (reply: Reply<Coupon>)
    requires db.Valid()
    modifies db`coupons, db`nextId
    ensures db.Valid()
    ensures (reply, db.coupons, db.nextId) == CreateOn(old(db.coupons), old(db.nextId), req)
  {
    if req.code == "" || req.discountPercentage.None? {
      return Fail(400, "Code and discount percentage are required");
    }
    UpperIdempotent(req.code);
    var existing := db.FindCouponByCode(Upper(req.code));
    if existing.Some? {
      return Fail(400, "Coupon code already exists");
    }
    reply := InsertNew(db, req, req.discountPercentage.value);
  }

  /** The `Coupon.create` step of createCoupon, once the code is known to be free. */
  method InsertNew(db: Database, req: CouponRequest, pct: real) returns (reply: Reply<Coupon>)
    requires db.Valid()
    requires forall a :: a in db.coupons ==> db.coupons[a].code != NormaliseCode(req.code)
    modifies db`coupons, db`nextId
    ensures db.Valid()
    ensures (reply, db.coupons, db.nextId) ==
      if !Creatable(req, pct) then (Fail(500, "Failed to create coupon"), old(db.coupons), old(db.nextId))
      else Created(old(db.coupons), old(db.nextId), NewCoupon(req, pct))
  {
    var c := NewCoupon(req, pct);
    CreatableIffValid(req, pct);
    assert !CodeClash(db.coupons, db.nextId, c.code);
    ghost var coupons, nextId := db.coupons, db.nextId;
    var created := db.InsertCoupon(c);
    if created.Failure? {
      assert created.error == ValidationError;
      return Fail(500, "Failed to create coupon");
    }
    reply := Ok(201, "Coupon created successfully", c);
    assert (reply, db.coupons, db.nextId) == Created(coupons, nextId, c);
  }

  /** updateCoupon on the coupon store: only the status is written, and only one
      of the two statuses is accepted. */
  function UpdateOn(coupons: map<Id, Coupon>, id: Id, status: string): (Reply<Coupon>, map<Id, Coupon>) {
    if status !in CouponStatuses then (Fail(400, "Status must be 'active' or 'inactive'"), coupons)
    else if id !in coupons then (Fail(404, "Coupon not found"), coupons)
    else
      var c := coupons[id].(status := status);
      (Ok(200, "Coupon updated successfully", c), coupons[id := c])
  }

  /** `updateCoupon`; `status` is "" when absent. */
  method UpdateCoupon(db: Database, id: Id, status: string) returns (reply: Reply<Coupon>)
    requires db.Valid()
    modifies db`coupons
    ensures db.Valid()
    ensures (reply, db.coupons) == UpdateOn(old(db.coupons), id, status)
  {
    if status != "active" && status != "inactive" {
      return Fail(400, "Status must be 'active' or 'inactive'");
    }
    var found := db.SetCouponStatus(id, status);
    if !found {
      return Fail(404, "Coupon not found");
    }
    reply := Ok(200, "Coupon updated successfully", db.coupons[id]);
  }

  /** deleteCoupon on the coupon store. */
  function DeleteOn(coupons: map<Id, Coupon>, id: Id): (Reply<()>, map<Id, Coupon>) {
    if id !in coupons then (Fail(404, "Coupon not found"), coupons)
    else (Ok(200, "Coupon deleted successfully", ()), coupons - {id})
  }

  /** `deleteCoupon`. */
  method DeleteCoupon(db: Database, id: Id) returns (reply: Reply<()>)
    requires db.Valid()
    modifies db`coupons
    ensures db.Valid()
    ensures (reply, db.coupons) == DeleteOn(old(db.coupons), id)
  {
    var found := db.DeleteCoupon(id);
    if !found {
      assert db.coupons == old(db.coupons);
      return Fail(404, "Coupon not found");
    }
    reply := Ok(200, "Coupon deleted successfully", ());
  }

  // ------------------------------------------------------------ properties

  /** No two stored coupons share a code. */
  predicate CodesUnique(coupons: map<Id, Coupon>) {
    forall a, b :: a in coupons && b in coupons && coupons[a].code == coupons[b].code ==> a == b
  }

  /** A created coupon is stored under a fresh id with the normalised code, the
      defaults for every falsy amount and limit, status 'active' and no use
      counted; nothing else changes. */
  lemma CreatedCouponShape(coupons: map<Id, Coupon>, nextId: nat, req: CouponRequest)
    requires forall a :: a in coupons ==> a < nextId
    ensures var (reply, coupons', nextId') := CreateOn(coupons, nextId, req);
      && (reply.Fail? ==> coupons' == coupons && nextId' == nextId)
      && (reply.Ok? ==>
            && nextId !in coupons && coupons' == coupons[nextId := reply.body] && nextId' == nextId + 1
            && reply.body.code == NormaliseCode(req.code) && UpperCased(reply.body.code)
            && reply.body.minPurchase == OrDefault(req.minPurchase, 0.0)
            && reply.body.maxPurchase == OrDefault(req.maxPurchase, MaxSafeInteger)
            && reply.body.usageLimit == LimitOrOne(req.usageLimit)
            && reply.body.status == "active" && reply.body.usedCount == 0)
  {
    NormaliseCodeShape(req.code);
  }

  /** A missing code or a missing percentage is a 400 and nothing is written. */
  lemma CreateRequiresCodeAndPercentage(coupons: map<Id, Coupon>, nextId: nat, req: CouponRequest)
    requires req.code == "" || req.discountPercentage.None?
    ensures CreateOn(coupons, nextId, req) == (Fail(400, "Code and discount percentage are required"), coupons, nextId)
  {
  }

  /** Creation keeps the codes unique. */
  lemma CreateKeepsCodesUnique(coupons: map<Id, Coupon>, nextId: nat, req: CouponRequest)
    requires CodesUnique(coupons) && forall a :: a in coupons ==> a < nextId
    ensures CodesUnique(CreateOn(coupons, nextId, req).1)
  {
  }

  /** A code some stored coupon already holds, in any spelling that normalises
      to it, is refused and nothing is written. */
  lemma TakenCodeIsDuplicate(coupons: map<Id, Coupon>, nextId: nat, req: CouponRequest, a: Id)
    requires req.code != "" && req.discountPercentage.Some?
    requires a in coupons && coupons[a].code == NormaliseCode(req.code)
    ensures CreateOn(coupons, nextId, req) == (Fail(400, "Coupon code already exists"), coupons, nextId)
  {
  }

  /** Codes are unique whatever their case: once a code is created, creating
      any spelling that normalises alike (the same letters in any case, with
      any surrounding whitespace) is refused as a duplicate. */
  lemma SecondSpellingIsDuplicate(coupons: map<Id, Coupon>, nextId: nat, req: CouponRequest, req2: CouponRequest)
    requires forall a :: a in coupons ==> a < nextId
    requires req2.code != "" && req2.discountPercentage.Some? && NormaliseCode(req2.code) == NormaliseCode(req.code)
    ensures var (reply, coupons', nextId') := CreateOn(coupons, nextId, req);
      reply.Ok? ==> CreateOn(coupons', nextId', req2) == (Fail(400, "Coupon code already exists"), coupons', nextId')
  {
    var r := CreateOn(coupons, nextId, req);
    CreatedCouponShape(coupons, nextId, req);
    if r.0.Ok? {
      TakenCodeIsDuplicate(r.1, r.2, req2, nextId);
    }
  }

  /** Spellings that differ only in letter case normalise alike. */
  lemma CaseDoesNotMatter(code: string, code2: string)
    requires Upper(code) == Upper(code2)
    ensures NormaliseCode(code) == NormaliseCode(code2)
  {
  }

  /** An update changes the status of one coupon and nothing else: its code,
      amounts and limits, and every other coupon, stay as they were. */
  lemma UpdateChangesOnlyStatus(coupons: map<Id, Coupon>, id: Id, status: string)
    ensures var (reply, coupons') := UpdateOn(coupons, id, status);
      && coupons'.Keys == coupons.Keys
      && (forall a :: a in coupons && a != id ==> coupons'[a] == coupons[a])
      && (reply.Ok? <==> status in CouponStatuses && id in coupons)
      && (reply.Ok? ==> coupons'[id].(status := coupons[id].status) == coupons[id] && coupons'[id].status == status)
      && (reply.Fail? ==> coupons' == coupons)
  {
  }

  /** A deleted coupon is gone, and deleting or updating it again is a 404. */
  lemma DeleteThenNotFound(coupons: map<Id, Coupon>, id: Id, status: string)
    ensures var (reply, coupons') := DeleteOn(coupons, id);
      && id !in coupons'
      && (reply.Ok? <==> id in coupons)
      && DeleteOn(coupons', id).0 == Fail(404, "Coupon not found")
      && (status in CouponStatuses ==> UpdateOn(coupons', id, status).0 == Fail(404, "Coupon not found"))
  {
  }
}
