/** Writing a snapshot as a value tree and reading it back. */
module SnapshotJson {

  import opened Wrappers
  import opened Sequences
  import opened Chain
  import opened PoolEvents
  import opened Json
  import opened Snapshots
  import Numerals

  // Member names in alphabetical order. FACTS stands for all members that are written as they are.
  const AMOUNT: Key := 0
  const BLOCK_REFERENCES: Key := 1
  const DEPOSIT_OBSERVATIONS: Key := 2
  const FACTS: Key := 3
  const QUERIED_SELECTORS: Key := 4
  const VIEWING_KEY_REGISTRATION_OBSERVATIONS: Key := 5
  const WITHDRAWAL_OBSERVATIONS: Key := 6

  datatype PlainText =
    | FactsText(facts: SnapshotFacts)
    | EventText(event: PoolEvent)
    | ReferenceText(reference: Header)
    | FeltText(felt: nat)

  type Tree = Value<PlainText>
  type Members = map<Key, Tree>

  // ----- writing

  function AmountIn(e: PoolEvent): nat {
    if e.detail.Registration? then 0 else e.detail.amount
  }

  function WithAmount(e: PoolEvent, amount: nat): PoolEvent {
    match e.detail
    case Deposit(depositor, token, _) => e.(detail := Deposit(depositor, token, amount))
    case Withdrawal(recipient, token, _) => e.(detail := Withdrawal(recipient, token, amount))
    case Registration(_) => e
  }

  function EventMembers(e: PoolEvent): Members {
    map[FACTS := Plain(EventText(WithAmount(e, 0)))]
    + (if e.detail.Registration? then map[] else map[AMOUNT := BigInteger(AmountIn(e))])
  }

  function AsEventTree(): PoolEvent -> Tree {
    (e: PoolEvent) => Object(AsFields(EventMembers(e)))
  }

  function AsReferenceTree(): Header -> Tree {
    (h: Header) => Plain(ReferenceText(h))
  }

  function AsFeltTree(): nat -> Tree {
    (f: nat) => Plain(FeltText(f))
  }

  function EventList(events: seq<PoolEvent>): Tree {
    List(Map(events, AsEventTree()))
  }

  function SnapshotMembers(s: PublicSnapshot): Members {
    map[FACTS := Plain(FactsText(s.facts)),
        QUERIED_SELECTORS := List(Map(s.queriedSelectors, AsFeltTree())),
        BLOCK_REFERENCES := List(Map(s.blockReferences, AsReferenceTree())),
        DEPOSIT_OBSERVATIONS := EventList(s.depositObservations),
        WITHDRAWAL_OBSERVATIONS :=
          (if s.withdrawalObservations.None? then Undefined else EventList(s.withdrawalObservations.value)),
        VIEWING_KEY_REGISTRATION_OBSERVATIONS := EventList(s.registrationObservations)]
  }

  /** The canonical document of a snapshot. */
  function CanonicalJson(cfg: Config, s: PublicSnapshot): Tree {
    Stable(Object(AsFields(SnapshotMembers(Canonical(cfg, s)))))
  }

  // ----- reading

  /** The members of an object by name; anything else has none. */
  function View(v: Tree): Members {
    if v.Object? then map k: Key | k < KEY_COUNT && Get(v.fields, k).Some? :: Get(v.fields, k).value else map[]
  }

  function ItemsAt(m: Members, k: Key): Option<seq<Tree>> {
    if k in m && m[k].List? then Some(m[k].items) else None
  }

  /** Amounts are read from decimal text; any other text is refused. */
  function AmountAt(m: Members): Option<nat> {
    if AMOUNT in m && m[AMOUNT].Text? && Numerals.AllDigits(m[AMOUNT].text, Numerals.Ten) then
      Some(Numerals.Value(m[AMOUNT].text, Numerals.Ten))
    else None
  }

  function DecodeEvent(m: Members): Option<PoolEvent> {
    if FACTS !in m || !m[FACTS].Plain? || !m[FACTS].plain.EventText? then None
    else
      var fixed := m[FACTS].plain.event;
      if fixed.detail.Registration? then Some(fixed)
      else
        var amount :- AmountAt(m);
        Some(WithAmount(fixed, amount))
  }

  function DecodeEvents(items: seq<Tree>): Option<seq<PoolEvent>> {
    if items == [] then Some([])
    else
      var first :- DecodeEvent(View(items[0]));
      var rest :- DecodeEvents(items[1..]);
      Some([first] + rest)
  }

  function DecodeReferences(items: seq<Tree>): Option<seq<Header>> {
    if items == [] then Some([])
    else
      var rest :- DecodeReferences(items[1..]);
      if items[0].Plain? && items[0].plain.ReferenceText? then Some([items[0].plain.reference] + rest) else None
  }

  function DecodeFelts(items: seq<Tree>): Option<seq<nat>> {
    if items == [] then Some([])
    else
      var rest :- DecodeFelts(items[1..]);
      if items[0].Plain? && items[0].plain.FeltText? then Some([items[0].plain.felt] + rest) else None
  }

  function EventsUnder(m: Members, k: Key): Option<seq<PoolEvent>> {
    var items :- ItemsAt(m, k);
    DecodeEvents(items)
  }

  function ParseMembers(m: Members): Option<PublicSnapshot> {
    var selectors :- ItemsAt(m, QUERIED_SELECTORS);
    var references :- ItemsAt(m, BLOCK_REFERENCES);
    var felts :- DecodeFelts(selectors);
    var headers :- DecodeReferences(references);
    var deposits :- EventsUnder(m, DEPOSIT_OBSERVATIONS);
    var registrations :- EventsUnder(m, VIEWING_KEY_REGISTRATION_OBSERVATIONS);
    if FACTS !in m || !m[FACTS].Plain? || !m[FACTS].plain.FactsText? then None
    else if WITHDRAWAL_OBSERVATIONS !in m then
      Some(PublicSnapshot(m[FACTS].plain.facts, felts, headers, deposits, None, registrations))
    else
      var withdrawals :- EventsUnder(m, WITHDRAWAL_OBSERVATIONS);
      Some(PublicSnapshot(m[FACTS].plain.facts, felts, headers, deposits, Some(withdrawals), registrations))
  }

  function ParseSnapshot(v: Tree): Option<PublicSnapshot> {
    ParseMembers(View(v))
  }

  // ----- reading what was written

  /** m holds the stable form of everything that was written under a name, undefined members excepted. */
  ghost predicate Represents(m: Members, written: Members) {
    forall k :: k in written && k < KEY_COUNT ==>
      if written[k].Undefined? then k !in m else k in m && m[k] == Stable(written[k])
  }

  lemma StableRepresents(written: Members)
    ensures Represents(View(Stable(Object(AsFields(written)))), written)
  {
    forall k | k in written && k < KEY_COUNT
      ensures Get(Stable(Object(AsFields(written))).fields, k) == StableMember(Some(written[k]))
    {
      MembersAre(written, k);
    }
  }

  lemma AmountReadBack(m: Members, amount: nat)
    requires AMOUNT in m && m[AMOUNT] == Stable(BigInteger(amount))
    ensures AmountAt(m) == Some(amount)
  {
    Numerals.PrintRead(amount, Numerals.Ten);
  }

  lemma EventReadBack(m: Members, e: PoolEvent)
    requires Represents(m, EventMembers(e))
    ensures DecodeEvent(m) == Some(e)
  {
    var written := EventMembers(e);
    assert FACTS in written && written[FACTS] == Plain(EventText(WithAmount(e, 0)));
    if !e.detail.Registration? {
      assert AMOUNT in written && written[AMOUNT] == BigInteger(AmountIn(e));
      AmountReadBack(m, AmountIn(e));
    }
  }

  lemma EventTreeReadBack(e: PoolEvent)
    ensures DecodeEvent(View(Stable(AsEventTree()(e)))) == Some(e)
  {
    StableRepresents(EventMembers(e));
    EventReadBack(View(Stable(AsEventTree()(e))), e);
  }

  lemma StableMapStep<T>(s: seq<T>, f: T -> Tree)
    requires s != []
    ensures StableItems(Map(s, f)) == [Stable(f(s[0]))] + StableItems(Map(s[1..], f))
  {
    assert Map(s, f)[1..] == Map(s[1..], f);
  }

  lemma {:induction false} EventsReadBack(events: seq<PoolEvent>)
    ensures DecodeEvents(StableItems(Map(events, AsEventTree()))) == Some(events)
  {
    hide View, DecodeEvent, Stable, AsEventTree;
    if events != [] {
      var first, rest := Stable(AsEventTree()(events[0])), StableItems(Map(events[1..], AsEventTree()));
      StableMapStep(events, AsEventTree());
      EventTreeReadBack(events[0]);
      EventsReadBack(events[1..]);
      DecodeEventsCons(first, rest);
      assert events == [events[0]] + events[1..];
    }
  }

  lemma DecodeEventsCons(first: Tree, rest: seq<Tree>)
    requires DecodeEvent(View(first)).Some? && DecodeEvents(rest).Some?
    ensures DecodeEvents([first] + rest) == Some([DecodeEvent(View(first)).value] + DecodeEvents(rest).value)
  {
    assert ([first] + rest)[1..] == rest;
  }

  lemma {:induction false} ReferencesReadBack(headers: seq<Header>)
    ensures DecodeReferences(StableItems(Map(headers, AsReferenceTree()))) == Some(headers)
  {
    if headers != [] {
      var first, rest := Stable(AsReferenceTree()(headers[0])), StableItems(Map(headers[1..], AsReferenceTree()));
      StableMapStep(headers, AsReferenceTree());
      ReferencesReadBack(headers[1..]);
      assert ([first] + rest)[1..] == rest;
      assert headers == [headers[0]] + headers[1..];
    }
  }

  lemma {:induction false} FeltsReadBack(felts: seq<nat>)
    ensures DecodeFelts(StableItems(Map(felts, AsFeltTree()))) == Some(felts)
  {
    if felts != [] {
      var first, rest := Stable(AsFeltTree()(felts[0])), StableItems(Map(felts[1..], AsFeltTree()));
      StableMapStep(felts, AsFeltTree());
      FeltsReadBack(felts[1..]);
      assert ([first] + rest)[1..] == rest;
      assert felts == [felts[0]] + felts[1..];
    }
  }

  lemma EventListReadBack(m: Members, k: Key, events: seq<PoolEvent>)
    requires k in m && m[k] == Stable(EventList(events))
    ensures EventsUnder(m, k) == Some(events)
  {
    hide DecodeEvents;
    EventsReadBack(events);
  }

  lemma ListsReadBack(m: Members, s: PublicSnapshot)
    requires Represents(m, SnapshotMembers(s))
    ensures ItemsAt(m, QUERIED_SELECTORS).Some? && DecodeFelts(m[QUERIED_SELECTORS].items) == Some(s.queriedSelectors)
    ensures ItemsAt(m, BLOCK_REFERENCES).Some? && DecodeReferences(m[BLOCK_REFERENCES].items) == Some(s.blockReferences)
  {
    assert m[QUERIED_SELECTORS] == Stable(List(Map(s.queriedSelectors, AsFeltTree())));
    assert m[BLOCK_REFERENCES] == Stable(List(Map(s.blockReferences, AsReferenceTree())));
    FeltsReadBack(s.queriedSelectors);
    ReferencesReadBack(s.blockReferences);
  }

  lemma ObservationsReadBack(m: Members, s: PublicSnapshot)
    requires Represents(m, SnapshotMembers(s))
    ensures EventsUnder(m, DEPOSIT_OBSERVATIONS) == Some(s.depositObservations)
    ensures EventsUnder(m, VIEWING_KEY_REGISTRATION_OBSERVATIONS) == Some(s.registrationObservations)
  {
    var written := SnapshotMembers(s);
    assert written[DEPOSIT_OBSERVATIONS] == EventList(s.depositObservations);
    assert written[VIEWING_KEY_REGISTRATION_OBSERVATIONS] == EventList(s.registrationObservations);
    EventListReadBack(m, DEPOSIT_OBSERVATIONS, s.depositObservations);
    EventListReadBack(m, VIEWING_KEY_REGISTRATION_OBSERVATIONS, s.registrationObservations);
  }

  lemma WithdrawalsReadBack(m: Members, s: PublicSnapshot)
    requires Represents(m, SnapshotMembers(s))
    ensures WITHDRAWAL_OBSERVATIONS in m <==> s.withdrawalObservations.Some?
    ensures s.withdrawalObservations.Some? ==> EventsUnder(m, WITHDRAWAL_OBSERVATIONS) == s.withdrawalObservations
  {
    var written := SnapshotMembers(s);
    assert WITHDRAWAL_OBSERVATIONS in written;
    if s.withdrawalObservations.Some? {
      assert written[WITHDRAWAL_OBSERVATIONS] == EventList(s.withdrawalObservations.value);
      EventListReadBack(m, WITHDRAWAL_OBSERVATIONS, s.withdrawalObservations.value);
    }
  }

  lemma SnapshotReadBack(m: Members, s: PublicSnapshot)
    requires Represents(m, SnapshotMembers(s))
    ensures ParseMembers(m) == Some(s)
  {
    ListsReadBack(m, s);
    ObservationsReadBack(m, s);
    WithdrawalsReadBack(m, s);
    assert SnapshotMembers(s)[FACTS] == Plain(FactsText(s.facts));
  }

  /** Parsing a stored document gives the canonical snapshot, whose document is the stored one again. */
  lemma StoredRoundTrip(cfg: Config, s: PublicSnapshot)
    requires ValidConfig(cfg)
    ensures ParseSnapshot(CanonicalJson(cfg, s)) == Some(Canonical(cfg, s))
    ensures CanonicalJson(cfg, Canonical(cfg, s)) == CanonicalJson(cfg, s)
  {
    StableRepresents(SnapshotMembers(Canonical(cfg, s)));
    SnapshotReadBack(View(CanonicalJson(cfg, s)), Canonical(cfg, s));
    CanonicalIdempotent(cfg, s);
  }
}
