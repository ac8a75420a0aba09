/**
 * The simple specification of creations: a registry in which a source's key and a business identity each name at most
 * one registration. Create and CreateReturn refine it, over whole runs.
 */
module Registry {
  import opened Text
  import opened Models
  import opened Items
  import opened Store
  import opened Operations
  import opened Writes
  import opened Invariants

  /** What a creation asked for, in normal form. A return names its original by public id. */
  datatype Subject =
    | OutboundSubject(order: string, customer: string, handoverCode: string, carrier: string, serviceLevel: string,
                      recipient: Address, lines: seq<Line>)
    | ReturnSubject(order: string, original: string, customer: string, sender: Address, lines: seq<Line>)

  /** What may be registered once: an order, or a return of one shipment under one order. */
  datatype Business = OfOrder(order: string) | OfReturn(order: string, original: string)

  datatype Registration = Registration(subject: Subject, source: string, key: string)

  type Book = map<nat, Registration>

  datatype Ruling = Existing(id: nat) | Conflict | Unregistered

  function BusinessOf(s: Subject): (b: Business) {
    match s
    case OutboundSubject(order, _, _, _, _, _, _) => OfOrder(order)
    case ReturnSubject(order, original, _, _, _) => OfReturn(order, original)
  }

  /** Two requests for the same thing: equal in everything but the order of their items. */
  ghost predicate Equivalent(a: Subject, b: Subject) {
    a.(lines := []) == b.(lines := []) && SameLines(a.lines, b.lines)
  }

  ghost function KeyHolders(book: Book, source: string, key: string): (ids: set<nat>) {
    set id | id in book && book[id].source == source && book[id].key == key
  }

  ghost function BusinessHolders(book: Book, b: Business): (ids: set<nat>) {
    set id | id in book && BusinessOf(book[id].subject) == b
  }

  ghost function Judge(book: Book, id: nat, s: Subject): (v: Ruling)
    requires id in book
  {
    if Equivalent(book[id].subject, s) then Existing(id) else Conflict
  }

  /** The registry's answer: the holder of the key decides, else the holder of the business identity. */
  ghost function Ask(book: Book, s: Subject, source: string, key: string): (v: Ruling) {
    if KeyHolders(book, source, key) != {} then Judge(book, Min(KeyHolders(book, source, key)), s)
    else if BusinessHolders(book, BusinessOf(s)) != {} then Judge(book, Min(BusinessHolders(book, BusinessOf(s))), s)
    else Unregistered
  }

  // ----- the registry behind the tables -----

  ghost function SubjectOf(t: Tables, id: nat): (s: Subject)
    requires id in t.shipments && WellKeyed(t.shipments, t.shipments[id].origin)
  {
    var o := t.shipments[id].origin;
    var lines := StoredLines(ItemsOf(t.items, id));
    if o.isReturn
    then ReturnSubject(o.order, t.shipments[o.original.value].origin.publicId, o.customer, o.sender, lines)
    else OutboundSubject(o.order, o.customer, o.handoverCode.value, o.carrier, o.serviceLevel, o.recipient, lines)
  }

  ghost function BookOf(t: Tables): (book: Book)
    requires RowsKeyed(t.shipments)
  {
    map id | id in t.shipments ::
      Registration(SubjectOf(t, id), t.shipments[id].origin.source, t.shipments[id].origin.key)
  }

  function CreateSubject(input: CreateInput): (s: Subject) {
    OutboundSubject(TrimSpace(input.order), TrimSpace(input.customer), TrimSpace(input.handoverCode),
                    TrimSpace(input.carrier),
                    TrimSpace(input.serviceLevel), NormalizeAddress(input.recipient), RequestedLines(input.items))
  }

  function ReturnedSubject(input: ReturnInput): (s: Subject) {
    ReturnSubject(TrimSpace(input.order), TrimSpace(input.original), TrimSpace(input.customer),
                  NormalizeAddress(input.customerAddress), RequestedLines(input.items))
  }

  lemma CreateMatchIsEquivalence(t: Tables, id: nat, input: CreateInput)
    requires id in t.shipments && WellKeyed(t.shipments, t.shipments[id].origin)
    ensures MatchesCreate(t, id, input) <==> Equivalent(SubjectOf(t, id), CreateSubject(input))
  {
  }

  lemma ReturnMatchIsEquivalence(t: Tables, id: nat, input: ReturnInput)
    requires id in t.shipments && WellKeyed(t.shipments, t.shipments[id].origin)
    ensures MatchesReturn(t, id, input) == if Equivalent(SubjectOf(t, id), ReturnedSubject(input)) then Same
            else Different
  {
  }

  /** The text a business identity is stored as. */
  function BusinessText(b: Business): (s: string) {
    match b
    case OfOrder(order) => "shipment:" + order
    case OfReturn(order, original) => "return:" + order + ":" + original
  }

  /** Business keys are injective as long as public ids hold no colon; orders may. */
  lemma BusinessTextIsInjective(a: Business, b: Business)
    requires a.OfReturn? ==> ColonFree(a.original)
    requires b.OfReturn? ==> ColonFree(b.original)
    ensures BusinessText(a) == BusinessText(b) <==> a == b
  {
    assert BusinessText(a)[0] == if a.OfOrder? then 's' else 'r';
    assert BusinessText(b)[0] == if b.OfOrder? then 's' else 'r';
    if BusinessText(a) == BusinessText(b) {
      if a.OfOrder? && b.OfOrder? {
        assert a.order == BusinessText(a)[9..] == BusinessText(b)[9..] == b.order;
      } else if a.OfReturn? && b.OfReturn? {
        LastColonSplits("return:" + a.order, a.original, "return:" + b.order, b.original);
        assert a.order == ("return:" + a.order)[7..] == ("return:" + b.order)[7..] == b.order;
      }
    }
  }

  lemma StoredBusinessText(t: Tables, id: nat)
    requires id in t.shipments && WellKeyed(t.shipments, t.shipments[id].origin)
    ensures t.shipments[id].origin.businessKey == BusinessText(BusinessOf(SubjectOf(t, id)))
  {
  }

  lemma HoldersAgree(t: Tables, source: string, key: string, b: Business)
    requires RowsKeyed(t.shipments) && RowsOk(t.shipments)
    requires b.OfReturn? ==> ColonFree(b.original)
    ensures KeyHolders(BookOf(t), source, key) == ByKey(t.shipments, source, key)
    ensures BusinessHolders(BookOf(t), b) == ByBusinessKey(t.shipments, BusinessText(b))
  {
    forall id | id in t.shipments
      ensures BusinessOf(SubjectOf(t, id)) == b <==> t.shipments[id].origin.businessKey == BusinessText(b)
    {
      assert WellKeyed(t.shipments, t.shipments[id].origin);
      StoredBusinessText(t, id);
      var o := t.shipments[id].origin;
      if o.isReturn {
        assert RowOk(t.shipments[o.original.value]);
      }
      BusinessTextIsInjective(BusinessOf(SubjectOf(t, id)), b);
    }
  }

  lemma BusinessTextIsTrimmed(prefix: string, a: string)
    requires prefix != "" && !IsSpace(prefix[0]) && Trimmed(a) && a != ""
    ensures TrimSpace(prefix + a) == prefix + a
  {
    TrimSpaceIsIdempotent(prefix + a);
  }

  // ----- one call -----

  /** A call's key and source as the API passes them on. */
  ghost predicate Plain(source: string) {
    Trimmed(source)
  }

  /** Values drawn for a creation that no stored row uses: row and public id, shipment and tracking number. */
  ghost predicate UnusedNumbers(shipments: map<nat, Shipment>, f: Draws) {
    f.shipmentId !in shipments
    && forall id :: id in shipments ==>
         && shipments[id].origin.publicId != PublicId(f)
         && shipments[id].origin.shipmentNumber != f.shipmentNumber
         && shipments[id].origin.trackingNumber != f.trackingNumber
  }

  ghost predicate UnusedHandover(shipments: map<nat, Shipment>, code: string) {
    forall id :: id in shipments ==> shipments[id].origin.handoverCode != Some(code)
  }

  lemma CreateReplays(t: Tables, input: CreateInput, id: nat)
    requires RowsKeyed(t.shipments) && id in t.shipments
    ensures CreateReplay(t, id, input) == match Judge(BookOf(t), id, CreateSubject(input))
                                          case Existing(_) => ReplayShipment(id)
                                          case _ => Reject(IdempotencyConflict)
  {
    assert WellKeyed(t.shipments, t.shipments[id].origin);
    CreateMatchIsEquivalence(t, id, input);
  }

  lemma ReturnReplays(t: Tables, input: ReturnInput, id: nat)
    requires RowsKeyed(t.shipments) && id in t.shipments
    ensures ReturnReplay(t, id, input) == match Judge(BookOf(t), id, ReturnedSubject(input))
                                          case Existing(_) => ReplayShipment(id)
                                          case _ => Reject(IdempotencyConflict)
  {
    assert WellKeyed(t.shipments, t.shipments[id].origin);
    ReturnMatchIsEquivalence(t, id, input);
  }

  /** With its source's key free, an insertion is refused by the holder of its business identity, and finds that row. */
  lemma BusinessDecides(t: Tables, o: Origin, key: string, b: Business, id: nat)
    requires RowsKeyed(t.shipments) && RowsOk(t.shipments) && Plain(o.source) && (b.OfReturn? ==> ColonFree(b.original))
    requires KeyHolders(BookOf(t), o.source, TrimSpace(key)) == {}
    requires o.businessKey == BusinessText(b) == TrimSpace(BusinessText(b))
    ensures var holders := BusinessHolders(BookOf(t), b);
            && FindByKeyOrBusiness(t, o.source, key, o.businessKey)
               == (if holders == {} then None else Some(Min(holders)))
            && (holders != {} ==> ShipmentTaken(t.shipments, id, o))
  {
    TrimSpaceIsIdempotent(o.source);
    HoldersAgree(t, o.source, TrimSpace(key), b);
    var holders := ByBusinessKey(t.shipments, o.businessKey);
    assert {} + holders == holders;
    if holders != {} {
      assert SameUniqueColumn(t.shipments[Min(holders)].origin, o);
    }
  }

  lemma OrderTextIsTrimmed(order: string)
    requires ValidLength(order, 64)
    ensures var text := BusinessText(OfOrder(TrimSpace(order))); TrimSpace(text) == text == OutboundBusinessKey(order)
  {
    TrimSpaceIsIdempotent(order);
    BusinessTextIsTrimmed("shipment:", TrimSpace(order));
  }

  lemma ReturnTextIsTrimmed(order: string, original: string)
    requires ValidLength(original, 64)
    ensures var text := BusinessText(OfReturn(TrimSpace(order), TrimSpace(original)));
            TrimSpace(text) == text == ReturnBusinessKey(order, original)
  {
    TrimSpaceIsIdempotent(original);
    BusinessTextIsTrimmed("return:" + TrimSpace(order) + ":", TrimSpace(original));
  }

  /** Where an insertion ends when its source's key is free. */
  lemma InsertOutboundRefines(t: Tables, warehouse: Address, input: CreateInput, key: string, source: string,
                              requestId: string, f: Draws)
    requires RowsKeyed(t.shipments) && RowsOk(t.shipments) && Plain(source) && ValidLength(input.order, 64)
    requires KeyHolders(BookOf(t), source, TrimSpace(key)) == {}
    ensures var o := InsertOutbound(t, warehouse, input, key, source, requestId, f);
            var holders := BusinessHolders(BookOf(t), OfOrder(TrimSpace(input.order)));
            var s := OutboundShipment(warehouse, input, key, source, f);
            && (holders != {} ==> o == CreateReplay(t, Min(holders), input))
            && (holders == {} && ShipmentTaken(t.shipments, f.shipmentId, s.origin) ==> o == Reject(DuplicateKey))
            && (holders == {} && !ShipmentTaken(t.shipments, f.shipmentId, s.origin) ==>
                  o == Record(t, Creation, f.shipmentId, s, ItemRows(f.shipmentId, input.items),
                              OutboundRecord(input, key, source, requestId, f), f))
  {
    OrderTextIsTrimmed(input.order);
    BusinessDecides(t, OutboundShipment(warehouse, input, key, source, f).origin, key, OfOrder(TrimSpace(input.order)),
                    f.shipmentId);
  }

  lemma InsertReturnRefines(t: Tables, warehouse: Address, input: ReturnInput, originalId: nat, original: Origin,
                            key: string, source: string, requestId: string, f: Draws)
    requires RowsKeyed(t.shipments) && RowsOk(t.shipments) && Plain(source)
    requires ValidLength(input.order, 64) && ValidLength(input.original, 64)
    requires originalId in t.shipments && t.shipments[originalId].origin == original
    requires original.publicId == TrimSpace(input.original)
    requires KeyHolders(BookOf(t), source, TrimSpace(key)) == {}
    ensures var o := InsertReturn(t, warehouse, input, originalId, original, key, source, requestId, f);
            var holders := BusinessHolders(BookOf(t), OfReturn(TrimSpace(input.order), TrimSpace(input.original)));
            var s := ReturnShipment(warehouse, input, originalId, original, key, source, f);
            && (holders != {} ==> o == ReturnReplay(t, Min(holders), input))
            && (holders == {} && ShipmentTaken(t.shipments, f.shipmentId, s.origin) ==> o == Reject(DuplicateKey))
            && (holders == {} && !ShipmentTaken(t.shipments, f.shipmentId, s.origin) ==>
                  o == Record(t, Creation, f.shipmentId, s, ItemRows(f.shipmentId, input.items),
                              ReturnRecord(input, key, source, requestId, f), f))
  {
    assert RowOk(t.shipments[originalId]);
    ReturnTextIsTrimmed(input.order, input.original);
    BusinessDecides(t, ReturnShipment(warehouse, input, originalId, original, key, source, f).origin, key,
                    OfReturn(TrimSpace(input.order), TrimSpace(input.original)), f.shipmentId);
  }

  ghost predicate OutcomeAnswers(o: Outcome, v: Ruling) {
    match v
    case Existing(id) => o == ReplayShipment(id)
    case Conflict => o == Reject(IdempotencyConflict)
    case Unregistered => o.Accept? || o == Reject(DuplicateKey) || o == Reject(InvalidEvent)
  }

  lemma KeyDecides(t: Tables, source: string, key: string)
    requires RowsKeyed(t.shipments) && RowsOk(t.shipments) && Plain(source)
    ensures var holders := KeyHolders(BookOf(t), source, TrimSpace(key));
            FindByKey(t, source, key) == if holders == {} then None else Some(Min(holders))
  {
    TrimSpaceIsIdempotent(source);
    HoldersAgree(t, source, TrimSpace(key), OfOrder(""));
  }

  lemma InsertOutboundAnswers(t: Tables, warehouse: Address, input: CreateInput, key: string, source: string,
                              requestId: string, f: Draws)
    requires RowsKeyed(t.shipments) && RowsOk(t.shipments) && Plain(source) && ValidLength(input.order, 64)
    requires KeyHolders(BookOf(t), source, TrimSpace(key)) == {}
    ensures OutcomeAnswers(InsertOutbound(t, warehouse, input, key, source, requestId, f),
                           Ask(BookOf(t), CreateSubject(input), source, TrimSpace(key)))
  {
    InsertOutboundRefines(t, warehouse, input, key, source, requestId, f);
    var others := BusinessHolders(BookOf(t), OfOrder(TrimSpace(input.order)));
    if others != {} {
      CreateReplays(t, input, Min(others));
    }
  }

  /** A valid Create answers as the registry does; only an unregistered request can be accepted. */
  lemma CreateRefines(t: Tables, warehouse: Address, input: CreateInput, key: string, source: string,
                      requestId: string, f: Draws)
    requires RowsKeyed(t.shipments) && RowsOk(t.shipments) && Plain(source) && ValidLength(input.order, 64)
    ensures OutcomeAnswers(CreateTransaction(t, warehouse, input, key, source, requestId, f),
                           Ask(BookOf(t), CreateSubject(input), source, TrimSpace(key)))
  {
    KeyDecides(t, source, key);
    var holders := KeyHolders(BookOf(t), source, TrimSpace(key));
    if holders != {} {
      CreateReplays(t, input, Min(holders));
    } else {
      InsertOutboundAnswers(t, warehouse, input, key, source, requestId, f);
    }
  }

  /** A free key leaves the answer to the holder of the business identity. */
  lemma AskWithFreeKey(book: Book, s: Subject, source: string, key: string)
    requires KeyHolders(book, source, key) == {}
    ensures var holders := BusinessHolders(book, BusinessOf(s));
            Ask(book, s, source, key) == if holders == {} then Unregistered else Judge(book, Min(holders), s)
  {
  }

  lemma InsertReturnAnswers(t: Tables, warehouse: Address, input: ReturnInput, originalId: nat, original: Origin,
                            key: string, source: string, requestId: string, f: Draws)
    requires RowsKeyed(t.shipments) && RowsOk(t.shipments) && Plain(source)
    requires ValidLength(input.order, 64) && ValidLength(input.original, 64)
    requires originalId in t.shipments && t.shipments[originalId].origin == original
    requires original.publicId == TrimSpace(input.original)
    requires KeyHolders(BookOf(t), source, TrimSpace(key)) == {}
    ensures OutcomeAnswers(InsertReturn(t, warehouse, input, originalId, original, key, source, requestId, f),
                           Ask(BookOf(t), ReturnedSubject(input), source, TrimSpace(key)))
  {
    InsertReturnRefines(t, warehouse, input, originalId, original, key, source, requestId, f);
    AskWithFreeKey(BookOf(t), ReturnedSubject(input), source, TrimSpace(key));
    var others := BusinessHolders(BookOf(t), OfReturn(TrimSpace(input.order), TrimSpace(input.original)));
    assert BusinessOf(ReturnedSubject(input)) == OfReturn(TrimSpace(input.order), TrimSpace(input.original));
    if others != {} {
      ReturnReplays(t, input, Min(others));
    }
  }

  lemma ReturnSteps(t: Tables, warehouse: Address, input: ReturnInput, key: string, source: string, requestId: string,
                    f: Draws)
    requires FindByKey(t, source, key) == None
    ensures ReturnTransaction(t, warehouse, input, key, source, requestId, f)
            == match FindByPublicId(t, input.original)
               case None => Reject(ShipmentNotFound)
               case Some(id) => InsertReturn(t, warehouse, input, id, t.shipments[id].origin, key, source, requestId, f)
  {
  }

  /** A valid CreateReturn answers as the registry does, or finds no original. */
  lemma ReturnRefines(t: Tables, warehouse: Address, input: ReturnInput, key: string, source: string,
                      requestId: string, f: Draws)
    requires RowsKeyed(t.shipments) && RowsOk(t.shipments) && Plain(source)
    requires ValidLength(input.order, 64) && ValidLength(input.original, 64)
    ensures var o := ReturnTransaction(t, warehouse, input, key, source, requestId, f);
            if KeyHolders(BookOf(t), source, TrimSpace(key)) == {} && FindByPublicId(t, input.original) == None
            then o == Reject(ShipmentNotFound)
            else OutcomeAnswers(o, Ask(BookOf(t), ReturnedSubject(input), source, TrimSpace(key)))
  {
    KeyDecides(t, source, key);
    var holders := KeyHolders(BookOf(t), source, TrimSpace(key));
    if holders != {} {
      ReturnReplays(t, input, Min(holders));
    } else {
      ReturnSteps(t, warehouse, input, key, source, requestId, f);
      if FindByPublicId(t, input.original).Some? {
        var id := FindByPublicId(t, input.original).value;
        InsertReturnAnswers(t, warehouse, input, id, t.shipments[id].origin, key, source, requestId, f);
      }
    }
  }

  // ----- the book over time -----

  lemma {:induction false} ItemsOfAppend(items: seq<ItemRow>, more: seq<ItemRow>, id: nat)
    ensures ItemsOf(items + more, id) == ItemsOf(items, id) + ItemsOf(more, id)
  {
    if more == [] {
      assert items + more == items;
    } else {
      var all, shorter := items + more, more[..|more| - 1];
      ItemsOfAppend(items, shorter, id);
      assert all[..|all| - 1] == items + shorter && all[|all| - 1] == more[|more| - 1];
      var last := if more[|more| - 1].shipmentId == id then [more[|more| - 1]] else [];
      assert (ItemsOf(items, id) + ItemsOf(shorter, id)) + last == ItemsOf(items, id) + (ItemsOf(shorter, id) + last);
    }
  }

  lemma {:induction false} ItemsOfUniform(items: seq<ItemRow>, owner: nat, id: nat)
    requires forall i :: 0 <= i < |items| ==> items[i].shipmentId == owner
    ensures ItemsOf(items, id) == if id == owner then items else []
  {
    if items != [] {
      ItemsOfUniform(items[..|items| - 1], owner, id);
    }
  }

  lemma {:induction false} NoItemsOf(items: seq<ItemRow>, id: nat)
    requires forall i :: 0 <= i < |items| ==> items[i].shipmentId != id
    ensures ItemsOf(items, id) == []
  {
    if items != [] {
      NoItemsOf(items[..|items| - 1], id);
    }
  }

  /** Later tables keep, of every shipment, the columns and items that creations compare. */
  ghost predicate Remembers(t: Tables, t': Tables) {
    forall id :: id in t.shipments ==>
      && id in t'.shipments && t'.shipments[id].origin == t.shipments[id].origin
      && ItemsOf(t'.items, id) == ItemsOf(t.items, id)
  }

  lemma ItemsAfterInsert(items: seq<ItemRow>, more: seq<ItemRow>, owner: nat, id: nat)
    requires forall i :: 0 <= i < |more| ==> more[i].shipmentId == owner
    ensures ItemsOf(items + more, id) == ItemsOf(items, id) + if id == owner then more else []
  {
    ItemsOfAppend(items, more, id);
    ItemsOfUniform(more, owner, id);
  }

  lemma WrittenItems(t: Tables, w: Write)
    requires Lawful(t, w)
    ensures forall i :: 0 <= i < |w.items| ==> w.items[i].shipmentId == w.id
    ensures w.kind == Creation <==> w.id !in t.shipments
    ensures w.id in t.shipments ==> w.items == []
  {
  }

  lemma ItemsAfterCommit(t: Tables, w: Write, id: nat)
    requires Lawful(t, w) && Anchored(t)
    ensures id in t.shipments ==> ItemsOf(Commit(t, w).items, id) == ItemsOf(t.items, id)
    ensures id == w.id && w.kind == Creation ==> ItemsOf(Commit(t, w).items, id) == w.items
  {
    WrittenItems(t, w);
    ItemsAfterInsert(t.items, w.items, w.id, id);
    if id == w.id && w.kind == Creation {
      NoItemsOf(t.items, id);
    }
  }

  lemma CommitRemembers(t: Tables, w: Write)
    requires Lawful(t, w) && Anchored(t)
    ensures Remembers(t, Commit(t, w))
  {
    forall id | id in t.shipments
      ensures Commit(t, w).shipments[id].origin == t.shipments[id].origin
      ensures ItemsOf(Commit(t, w).items, id) == ItemsOf(t.items, id)
    {
      ItemsAfterCommit(t, w, id);
    }
  }

  /** Remembered shipments have the same registrations. */
  lemma SubjectsLast(t: Tables, t': Tables, id: nat)
    requires Remembers(t, t') && id in t.shipments && RowsKeyed(t.shipments) && RowsKeyed(t'.shipments)
    ensures BookOf(t')[id] == BookOf(t)[id]
  {
    assert WellKeyed(t.shipments, t.shipments[id].origin) && WellKeyed(t'.shipments, t'.shipments[id].origin);
  }

  /** No two shipments share a key of one source, an order, or a return of one shipment under one order. */
  lemma RegisteredOnce(t: Tables, a: nat, b: nat)
    requires ShipmentsDistinct(t.shipments) && RowsKeyed(t.shipments) && a in t.shipments && b in t.shipments
    requires var book := BookOf(t);
             || (book[a].source == book[b].source && book[a].key == book[b].key)
             || BusinessOf(book[a].subject) == BusinessOf(book[b].subject)
    ensures a == b
  {
    assert WellKeyed(t.shipments, t.shipments[a].origin) && WellKeyed(t.shipments, t.shipments[b].origin);
    StoredBusinessText(t, a);
    StoredBusinessText(t, b);
    assert a == b || !SameUniqueColumn(t.shipments[a].origin, t.shipments[b].origin);
  }

  /** A request that concerns a registration: under its key, or under an unused key for the same business identity. */
  ghost predicate Concerns(book: Book, id: nat, b: Business, source: string, key: string)
    requires id in book
  {
    || (book[id].source == source && book[id].key == key)
    || (KeyHolders(book, source, key) == {} && BusinessOf(book[id].subject) == b)
  }

  lemma SoleHolder(book: Book, ids: set<nat>, id: nat)
    requires id in ids && forall other :: other in ids ==> other == id
    ensures ids != {} && Min(ids) == id
  {
  }

  /**
   * Asking for what is registered: under its own key, or under an unused one, the answer is about that registration.
   */
  lemma AskFindsRegistration(t: Tables, id: nat, s: Subject, source: string, key: string)
    requires ShipmentsDistinct(t.shipments) && RowsKeyed(t.shipments) && id in t.shipments
    requires Concerns(BookOf(t), id, BusinessOf(s), source, key)
    ensures Ask(BookOf(t), s, source, key) == Judge(BookOf(t), id, s)
  {
    var book := BookOf(t);
    assert book[id].source == source && book[id].key == key ==> id in KeyHolders(book, source, key);
    var holders := if KeyHolders(book, source, key) != {} then KeyHolders(book, source, key)
      else BusinessHolders(book, BusinessOf(s));
    assert id in holders;
    forall other | other in holders ensures other == id {
      RegisteredOnce(t, other, id);
    }
    SoleHolder(book, holders, id);
  }
}
