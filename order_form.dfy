/** The order form: its initial contents for a new or an edited order, the field
    reducer that keeps the profit equal to the client price minus the real price,
    the photo-size warning, photo removal, and the submit step that hands the
    order to the store. */
module OrderForm {
  import opened Types
  import opened Text
  import opened StoreRules
  import opened Store
  import H = History

  /** An order without its id and creation time: what the form edits. */
  datatype Form = Form(
    client: string,
    transport: Transport,
    realPrice: int,
    clientPrice: int,
    profit: int,
    dateOrder: string,
    dateArrival: string,
    datePickup: string,
    dateDelivery: string,
    status: Status,
    photos: seq<string>,
    rating: int,
    review: string,
    suggestions: string)

  /** One call of set(key, value). */
  datatype Edit =
    | SetClient(client: string)
    | SetTransport(transport: Transport)
    | SetRealPrice(realPrice: int)
    | SetClientPrice(clientPrice: int)
    | SetProfit(profit: int)
    | SetDateOrder(dateOrder: string)
    | SetDateArrival(dateArrival: string)
    | SetDatePickup(datePickup: string)
    | SetDateDelivery(dateDelivery: string)
    | SetStatus(status: Status)
    | SetPhotos(photos: seq<string>)
    | SetRating(rating: int)
    | SetReview(review: string)
    | SetSuggestions(suggestions: string)

  /** find(o => o.id === id): the first order with the id. */
  function FindById(os: seq<Order>, id: string): (r: Option<Order>)
    ensures r.Some? ==> r.value.id == id
    ensures r.Some? ==> exists k :: 0 <= k < |os| && os[k] == r.value && forall j :: 0 <= j < k ==> os[j].id != id
    ensures r.None? <==> forall k :: 0 <= k < |os| ==> os[k].id != id
    decreases |os|
  {
    if os == [] then None
    else if os[0].id == id then Some(os[0])
    else
      var r := FindById(os[1..], id);
      if r.Some? then
        var k :| 0 <= k < |os[1..]| && os[1..][k] == r.value && forall j :: 0 <= j < k ==> os[1..][j].id != id;
        assert os[k + 1] == r.value && forall j :: 0 <= j < k + 1 ==> os[j].id != id;
        r
      else r
  }

  /** The editable part of an order. */
  function FormOf(o: Order): Form
  {
    Form(o.client, o.transport, o.realPrice, o.clientPrice, o.profit, o.dateOrder,
      o.dateArrival, o.datePickup, o.dateDelivery, o.status, o.photos, o.rating,
      o.review, o.suggestions)
  }

  /** The blank form: by plane, in progress, every amount 0, no photos, ordered today. */
  function BlankForm(today: string): Form
  {
    Form("", Avion, 0, 0, 0, today, "", "", "", Encours, [], 0, "", "")
  }

  /** The form's first contents: a copy of the order being edited, or the blank form. */
  function InitForm(existing: Option<Order>, today: string): Form
  {
    match existing
    case Some(o) => FormOf(o)
    case None => BlankForm(today)
  }

  /** The record spread with one field replaced. */
  function Put(f: Form, e: Edit): Form
  {
    match e
    case SetClient(v) => f.(client := v)
    case SetTransport(v) => f.(transport := v)
    case SetRealPrice(v) => f.(realPrice := v)
    case SetClientPrice(v) => f.(clientPrice := v)
    case SetProfit(v) => f.(profit := v)
    case SetDateOrder(v) => f.(dateOrder := v)
    case SetDateArrival(v) => f.(dateArrival := v)
    case SetDatePickup(v) => f.(datePickup := v)
    case SetDateDelivery(v) => f.(dateDelivery := v)
    case SetStatus(v) => f.(status := v)
    case SetPhotos(v) => f.(photos := v)
    case SetRating(v) => f.(rating := v)
    case SetReview(v) => f.(review := v)
    case SetSuggestions(v) => f.(suggestions := v)
  }

  predicate IsPriceEdit(e: Edit)
  {
    e.SetRealPrice? || e.SetClientPrice?
  }

  /** set: replace one field; a price change also recomputes the profit. */
  function SetField(f: Form, e: Edit): Form
  {
    var next := Put(f, e);
    if IsPriceEdit(e) then next.(profit := next.clientPrice - next.realPrice) else next
  }

  /** The profit shown is the client price minus the real price. */
  predicate ProfitConsistent(f: Form)
  {
    f.profit == f.clientPrice - f.realPrice
  }

  /** After a price change the profit is the new margin, and the other price is kept. */
  lemma SetPriceRecomputes(f: Form, e: Edit)
    requires IsPriceEdit(e)
    ensures ProfitConsistent(SetField(f, e))
    ensures e.SetRealPrice? ==> SetField(f, e).realPrice == e.realPrice && SetField(f, e).clientPrice == f.clientPrice
    ensures e.SetClientPrice? ==> SetField(f, e).clientPrice == e.clientPrice && SetField(f, e).realPrice == f.realPrice
  {
  }

  /** Any other change leaves the profit and both prices as they were. */
  lemma SetOtherKeepsProfit(f: Form, e: Edit)
    requires !IsPriceEdit(e) && !e.SetProfit?
    ensures SetField(f, e).profit == f.profit
    ensures SetField(f, e).realPrice == f.realPrice && SetField(f, e).clientPrice == f.clientPrice
  {
  }

  /** Editing the form through its inputs keeps a consistent profit consistent. */
  lemma SetKeepsConsistent(f: Form, e: Edit)
    requires ProfitConsistent(f) && !e.SetProfit?
    ensures ProfitConsistent(SetField(f, e))
  {
  }

  /** A real price of 1000 and a client price of 1500 give a profit of 500; raising the
      real price to 1600 then gives -100. */
  lemma ProfitExample(today: string)
    ensures var f := SetField(SetField(BlankForm(today), SetRealPrice(1000)), SetClientPrice(1500));
      && f.profit == 500
      && SetField(f, SetRealPrice(1600)).profit == -100
  {
  }

  // ---------------------------------------------------------------------------
  // Photos

  /** The summed length of the photo data texts. */
  function TotalSize(ps: seq<string>): nat
    decreases |ps|
  {
    if ps == [] then 0 else TotalSize(ps[..|ps| - 1]) + |ps[|ps| - 1]|
  }

  const PhotoSizeLimit: nat := 2000000

  /** The warning shows when the photos together exceed the limit. */
  predicate PhotoWarning(ps: seq<string>)
  {
    TotalSize(ps) > PhotoSizeLimit
  }

  lemma {:induction false} TotalSizeConcat(a: seq<string>, b: seq<string>)
    ensures TotalSize(a + b) == TotalSize(a) + TotalSize(b)
    decreases |b|
  {
    if b == [] {
      assert a + b == a;
    } else {
      assert (a + b)[..|a + b| - 1] == a + b[..|b| - 1];
      TotalSizeConcat(a, b[..|b| - 1]);
    }
  }

  /** filter((_, idx) => idx !== i): every photo but the one at index i, in order. */
  function RemoveAt(ps: seq<string>, i: int): (r: seq<string>)
    ensures 0 <= i < |ps| ==> r == ps[..i] + ps[i + 1..]
    ensures !(0 <= i < |ps|) ==> r == ps
    decreases |ps|
  {
    if ps == [] then []
    else
      var rest := RemoveAt(ps[1..], i - 1);
      if i == 0 then rest
      else
        assert 0 < i < |ps| ==> [ps[0]] + ps[1..][..i - 1] == ps[..i];
        [ps[0]] + rest
  }

  lemma SplitAt<T>(s: seq<T>, i: int)
    requires 0 <= i < |s|
    ensures s == s[..i] + ([s[i]] + s[i + 1..])
  {
  }

  /** Removing a photo lowers the total by exactly its size. */
  lemma RemoveAtSize(ps: seq<string>, i: int)
    requires 0 <= i < |ps|
    ensures TotalSize(RemoveAt(ps, i)) == TotalSize(ps) - |ps[i]|
  {
    var a, x, b := ps[..i], [ps[i]], ps[i + 1..];
    SplitAt(ps, i);
    TotalSizeConcat(a, b);
    TotalSizeConcat(a, x + b);
    TotalSizeConcat(x, b);
    assert x[..0] == [];
    assert TotalSize(x) == |ps[i]|;
  }

  /** Removing a photo never turns the warning on, and adding one never turns it off. */
  lemma WarningMonotone(ps: seq<string>, i: int, p: string)
    ensures !PhotoWarning(ps) ==> !PhotoWarning(RemoveAt(ps, i))
    ensures PhotoWarning(ps) ==> PhotoWarning(ps + [p])
  {
    if 0 <= i < |ps| {
      RemoveAtSize(ps, i);
    }
    assert (ps + [p])[..|ps|] == ps;
  }

  // ---------------------------------------------------------------------------
  // Submitting

  /** The order the form submits: the form's fields, the edited order's id and creation
      time when it has them (non-empty, non-zero), otherwise the current time. */
  function Submitted(f: Form, existing: Option<Order>, now: nat): (o: Order)
    ensures FormOf(o) == f
  {
    var id := if existing.Some? && existing.value.id != "" then existing.value.id else NatToText(now);
    var createdAt := if existing.Some? && existing.value.createdAt != 0 then existing.value.createdAt else now;
    Order(id, f.client, f.transport, f.realPrice, f.clientPrice, f.profit, f.dateOrder,
      f.dateArrival, f.datePickup, f.dateDelivery, f.status, f.photos, f.rating,
      f.review, f.suggestions, createdAt)
  }

  /** Editing keeps the order's identity; a new order is named and dated by the clock. */
  lemma SubmittedIdentity(f: Form, existing: Option<Order>, now: nat)
    ensures existing.Some? && existing.value.id != "" && existing.value.createdAt != 0 ==>
      Submitted(f, existing, now).id == existing.value.id && Submitted(f, existing, now).createdAt == existing.value.createdAt
    ensures existing.None? ==>
      Submitted(f, existing, now).id == NatToText(now) && Submitted(f, existing, now).createdAt == now
  {
  }

  /** Opening an order and submitting it unchanged gives back the same order. */
  lemma EditUnchangedRoundTrip(o: Order, today: string, now: nat)
    requires o.id != "" && o.createdAt != 0
    ensures Submitted(InitForm(Some(o), today), Some(o), now) == o
  {
  }

  /** Submitting an edit of an order found in the collection replaces it in place. */
  lemma SubmitEditReplaces(os: seq<Order>, id: string, f: Form, now: nat)
    requires FindById(os, id).Some? && id != "" && FindById(os, id).value.createdAt != 0
    ensures var o := Submitted(f, FindById(os, id), now);
      && |Upsert(os, o)| == |os|
      && forall k :: 0 <= k < |os| ==> Upsert(os, o)[k] == if os[k].id == id then o else os[k]
  {
    var e := FindById(os, id).value;
    var k :| 0 <= k < |os| && os[k] == e;
    assert HasId(os, id);
  }

  class OrderFormPage {
    /** The order being edited, if any. */
    var existing: Option<Order>
    var form: Form
    var photoWarning: bool

    /** The warning reflects the current photos. */
    predicate Valid()
      reads this
    {
      photoWarning == PhotoWarning(form.photos)
    }

    constructor(existing: Option<Order>, today: string)
      ensures this.existing == existing && form == InitForm(existing, today)
      ensures Valid()
    {
      this.existing := existing;
      form := InitForm(existing, today);
      photoWarning := PhotoWarning(InitForm(existing, today).photos);
    }

    /** set, followed by the effect that recomputes the warning. */
    method Set(e: Edit)
      modifies this
      ensures form == SetField(old(form), e) && existing == old(existing)
      ensures Valid()
    {
      form := SetField(form, e);
      photoWarning := PhotoWarning(form.photos);
    }

    /** A photo read from a file is appended to the photos. */
    method AddPhoto(p: string)
      modifies this
      ensures form == old(form).(photos := old(form).photos + [p]) && existing == old(existing)
      ensures old(photoWarning) ==> photoWarning
      ensures Valid()
      requires Valid()
    {
      WarningMonotone(form.photos, -1, p);
      Set(SetPhotos(form.photos + [p]));
    }

    /** removePhoto(i). */
    method RemovePhoto(i: int)
      requires Valid()
      modifies this
      ensures form == old(form).(photos := RemoveAt(old(form).photos, i)) && existing == old(existing)
      ensures !old(photoWarning) ==> !photoWarning
      ensures Valid()
    {
      WarningMonotone(form.photos, i, "");
      Set(SetPhotos(RemoveAt(form.photos, i)));
    }

    /** handleSubmit: nothing happens for a blank client name; otherwise the order is
        saved in the store. */
    method Submit(store: OrderStore, now: nat) returns (saved: bool)
      requires store.Valid()
      modifies store
      ensures saved <==> Trim(form.client) != ""
      ensures saved ==> store.Hist() == H.Commit(old(store.Hist()), Upsert(old(store.orders), Submitted(form, existing, now)))
      ensures saved ==> Submitted(form, existing, now) in store.orders
      ensures saved ==> store.storage == old(store.storage)[OrdersKey := Codec.Encode(store.orders)]
      ensures saved ==> store.backups == old(store.backups) + (if LoadAutosave(old(store.storage)) then [store.orders] else [])
      ensures saved ==> store.screen == old(store.screen) && store.user == old(store.user)
                        && store.lang == old(store.lang) && store.theme == old(store.theme)
                        && store.reminderDays == old(store.reminderDays) && store.autosave == old(store.autosave)
      ensures !saved ==> unchanged(store)
      ensures store.Valid()
    {
      if Trim(form.client) == "" {
        return false;
      }
      store.SaveOrder(Submitted(form, existing, now));
      saved := true;
    }
  }
}
