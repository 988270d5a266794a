/**
 * `_fetch_administrators`: the administrators section of a filing, a
 * dictionary from administrator kind to a list of administrators, flattened
 * into six parallel columns. A legal person contributes one row per
 * representative, its entity fields repeated on each; a natural person
 * contributes one row whose entity fields read "NA". Mandates go to their
 * own column: one text per mandate, or "NA" when there is none.
 */
module Administrators {
  import opened FilingText

  /** A person as a representative or a natural-person administrator describes them. */
  datatype Person = Person(firstName: string, lastName: string, address: Dict)

  datatype Entity = Entity(name: Value, identifier: Value, address: Dict)

  datatype LegalPerson = LegalPerson(entity: Entity, representatives: seq<Person>, mandates: seq<Mandate>)

  datatype NaturalPerson = NaturalPerson(person: Person, mandates: seq<Mandate>)

  /** One entry of the administrators dictionary; any other key is skipped. */
  datatype AdminGroup =
    | LegalPersons(legal: seq<LegalPerson>)
    | NaturalPersons(natural: seq<NaturalPerson>)
    | OtherGroup(key: string)

  /** The six columns, named as in the returned dictionary. */
  datatype AdminTable = AdminTable(
    representatives: seq<string>,
    repAddress: seq<string>,
    entity: seq<Value>,
    entityId: seq<Value>,
    entityAddress: seq<string>,
    mandate: seq<string>)

  const EmptyTable := AdminTable([], [], [], [], [], [])

  function Repeat<T>(x: T, n: nat): (r: seq<T>)
    ensures |r| == n && forall i :: 0 <= i < n ==> r[i] == x
  {
    seq(n, _ => x)
  }

  function NameOf(p: Person): string {
    RepresentativeName(p.firstName, p.lastName)
  }

  function Names(ps: seq<Person>): (r: seq<string>)
    ensures |r| == |ps|
  {
    if ps == [] then [] else Names(ps[..|ps| - 1]) + [NameOf(ps[|ps| - 1])]
  }

  function Addresses(ps: seq<Person>): (r: seq<string>)
    ensures |r| == |ps|
  {
    if ps == [] then [] else Addresses(ps[..|ps| - 1]) + [AddressText(ps[|ps| - 1].address)]
  }

  function MandateTexts(ms: seq<Mandate>): (r: seq<string>)
    ensures |r| == |ms|
  {
    if ms == [] then [] else MandateTexts(ms[..|ms| - 1]) + [MandateText(ms[|ms| - 1])]
  }

  /** The mandate column's share of one administrator. */
  function MandateColumn(ms: seq<Mandate>): (r: seq<string>)
    ensures |r| == if ms == [] then 1 else |ms|
  {
    if ms == [] then ["NA"] else MandateTexts(ms)
  }

  function AddLegal(t: AdminTable, lp: LegalPerson): AdminTable {
    var d := |lp.representatives|;
    AdminTable(
      t.representatives + Names(lp.representatives),
      t.repAddress + Addresses(lp.representatives),
      t.entity + Repeat(lp.entity.name, d),
      t.entityId + Repeat(lp.entity.identifier, d),
      t.entityAddress + Repeat(AddressText(lp.entity.address), d),
      t.mandate + MandateColumn(lp.mandates))
  }

  function AddNatural(t: AdminTable, np: NaturalPerson): AdminTable {
    AdminTable(
      t.representatives + [NameOf(np.person)],
      t.repAddress + [AddressText(np.person.address)],
      t.entity + [Str("NA")],
      t.entityId + [Str("NA")],
      t.entityAddress + ["NA"],
      t.mandate + MandateColumn(np.mandates))
  }

  function AddLegals(t: AdminTable, ls: seq<LegalPerson>): AdminTable
    decreases |ls|
  {
    if ls == [] then t else AddLegals(AddLegal(t, ls[0]), ls[1..])
  }

  function AddNaturals(t: AdminTable, ns: seq<NaturalPerson>): AdminTable
    decreases |ns|
  {
    if ns == [] then t else AddNaturals(AddNatural(t, ns[0]), ns[1..])
  }

  function AddGroup(t: AdminTable, g: AdminGroup): AdminTable {
    match g
    case LegalPersons(ls) => AddLegals(t, ls)
    case NaturalPersons(ns) => AddNaturals(t, ns)
    case OtherGroup(_) => t
  }

  function AddGroups(t: AdminTable, gs: seq<AdminGroup>): AdminTable
    decreases |gs|
  {
    if gs == [] then t else AddGroups(AddGroup(t, gs[0]), gs[1..])
  }

  /** The table `_fetch_administrators` returns for the dictionary's entries in order. */
  function AdministratorsTable(gs: seq<AdminGroup>): AdminTable {
    AddGroups(EmptyTable, gs)
  }

  lemma AppendAssoc<T>(a: seq<T>, b: seq<T>, x: T)
    ensures a + b + [x] == a + (b + [x])
  {
  }

  lemma ColumnsStep(reps: seq<Person>, j: nat)
    requires j < |reps|
    ensures Names(reps[..j + 1]) == Names(reps[..j]) + [NameOf(reps[j])]
    ensures Addresses(reps[..j + 1]) == Addresses(reps[..j]) + [AddressText(reps[j].address)]
  {
    assert reps[..j + 1][..j] == reps[..j];
  }

  /** The representative rows: a name and an address per representative, in order. */
  method AppendRepresentatives(names: seq<string>, addresses: seq<string>, reps: seq<Person>)
    returns (names': seq<string>, addresses': seq<string>)
    ensures names' == names + Names(reps)
    ensures addresses' == addresses + Addresses(reps)
  {
    names', addresses' := names, addresses;
    for j := 0 to |reps|
      invariant names' == names + Names(reps[..j])
      invariant addresses' == addresses + Addresses(reps[..j])
    {
      var address := BuildText(AddressRule, reps[j].address);
      ColumnsStep(reps, j);
      AppendAssoc(names, Names(reps[..j]), NameOf(reps[j]));
      AppendAssoc(addresses, Addresses(reps[..j]), address);
      names' := names' + [NameOf(reps[j])];
      addresses' := addresses' + [address];
    }
    assert reps[..|reps|] == reps;
  }

  /** The rows a legal person adds: one per representative, the entity repeated on each. */
  method AppendLegal(t: AdminTable, lp: LegalPerson) returns (u: AdminTable)
    ensures u == AddLegal(t, lp)
  {
    var d := |lp.representatives|;
    var names, addresses := AppendRepresentatives(t.representatives, t.repAddress, lp.representatives);
    var entityAddress := BuildText(AddressRule, lp.entity.address);
    var mandates := AppendMandates(t.mandate, lp.mandates);
    u := AdminTable(names, addresses,
                    t.entity + Repeat(lp.entity.name, d),
                    t.entityId + Repeat(lp.entity.identifier, d),
                    t.entityAddress + Repeat(entityAddress, d),
                    mandates);
  }

  lemma MandatesStep(ms: seq<Mandate>, j: nat)
    requires j < |ms|
    ensures MandateTexts(ms[..j + 1]) == MandateTexts(ms[..j]) + [MandateText(ms[j])]
  {
    assert ms[..j + 1][..j] == ms[..j];
  }

  method AppendMandateTexts(column: seq<string>, ms: seq<Mandate>) returns (r: seq<string>)
    ensures r == column + MandateTexts(ms)
  {
    r := column;
    for j := 0 to |ms|
      invariant r == column + MandateTexts(ms[..j])
    {
      var text := MandateText(ms[j]);
      MandatesStep(ms, j);
      AppendAssoc(column, MandateTexts(ms[..j]), text);
      r := r + [text];
    }
    assert ms[..|ms|] == ms;
  }

  /** The mandate column's share of one administrator: its mandate texts, or "NA". */
  method AppendMandates(column: seq<string>, ms: seq<Mandate>) returns (r: seq<string>)
    ensures r == column + MandateColumn(ms)
  {
    if ms == [] {
      r := column + ["NA"];
    } else {
      r := AppendMandateTexts(column, ms);
    }
  }

  /** `_fetch_administrators`: the columns grown entry by entry, administrator by administrator. */
  method FetchAdministrators(gs: seq<AdminGroup>) returns (t: AdminTable)
    ensures t == AdministratorsTable(gs)
  {
    t := EmptyTable;
    var g := 0;
    while g < |gs|
      invariant 0 <= g <= |gs|
      invariant AddGroups(t, gs[g..]) == AdministratorsTable(gs)
    {
      assert gs[g..][1..] == gs[g + 1..];
      match gs[g] {
        case LegalPersons(ls) =>
          t := AppendLegals(t, ls);
        case NaturalPersons(ns) =>
          t := AppendNaturals(t, ns);
        case OtherGroup(_) =>
      }
      g := g + 1;
    }
  }

  /** The loop over the legal persons of one entry. */
  method AppendLegals(t0: AdminTable, ls: seq<LegalPerson>) returns (t: AdminTable)
    ensures t == AddLegals(t0, ls)
  {
    t := t0;
    var i := 0;
    while i < |ls|
      invariant 0 <= i <= |ls|
      invariant AddLegals(t, ls[i..]) == AddLegals(t0, ls)
    {
      assert ls[i..][1..] == ls[i + 1..];
      t := AppendLegal(t, ls[i]);
      i := i + 1;
    }
  }

  /** The loop over the natural persons of one entry: their entity columns are "NA". */
  method AppendNaturals(t0: AdminTable, ns: seq<NaturalPerson>) returns (t: AdminTable)
    ensures t == AddNaturals(t0, ns)
  {
    t := t0;
    var i := 0;
    while i < |ns|
      invariant 0 <= i <= |ns|
      invariant AddNaturals(t, ns[i..]) == AddNaturals(t0, ns)
    {
      assert ns[i..][1..] == ns[i + 1..];
      var np := ns[i];
      var address := BuildText(AddressRule, np.person.address);
      var mandates := AppendMandates(t.mandate, np.mandates);
      t := AdminTable(t.representatives + [NameOf(np.person)],
                      t.repAddress + [address],
                      t.entity + [Str("NA")],
                      t.entityId + [Str("NA")],
                      t.entityAddress + ["NA"],
                      mandates);
      i := i + 1;
    }
  }

  /** Rows of the five person columns: representatives of legal persons, plus natural persons. */
  function RowCount(gs: seq<AdminGroup>): nat {
    if gs == [] then 0
    else
      (match gs[0]
       case LegalPersons(ls) => RepresentativeCount(ls)
       case NaturalPersons(ns) => |ns|
       case OtherGroup(_) => 0) + RowCount(gs[1..])
  }

  function RepresentativeCount(ls: seq<LegalPerson>): nat {
    if ls == [] then 0 else |ls[0].representatives| + RepresentativeCount(ls[1..])
  }

  /** Entries of the mandate column: for each administrator, its mandates, or one "NA". */
  function MandateCount(gs: seq<AdminGroup>): nat {
    if gs == [] then 0
    else
      (match gs[0]
       case LegalPersons(ls) => LegalMandateCount(ls)
       case NaturalPersons(ns) => NaturalMandateCount(ns)
       case OtherGroup(_) => 0) + MandateCount(gs[1..])
  }

  function AtLeastOne(n: nat): nat {
    if n == 0 then 1 else n
  }

  function LegalMandateCount(ls: seq<LegalPerson>): nat {
    if ls == [] then 0 else AtLeastOne(|ls[0].mandates|) + LegalMandateCount(ls[1..])
  }

  function NaturalMandateCount(ns: seq<NaturalPerson>): nat {
    if ns == [] then 0 else AtLeastOne(|ns[0].mandates|) + NaturalMandateCount(ns[1..])
  }

  /** The five person columns share one length, and the mandate column its own. */
  predicate Grown(t: AdminTable, u: AdminTable, rows: nat, mandates: nat) {
    && |u.representatives| == |t.representatives| + rows
    && |u.repAddress| == |t.repAddress| + rows
    && |u.entity| == |t.entity| + rows
    && |u.entityId| == |t.entityId| + rows
    && |u.entityAddress| == |t.entityAddress| + rows
    && |u.mandate| == |t.mandate| + mandates
  }

  lemma {:induction false} AddLegalsGrowth(t: AdminTable, ls: seq<LegalPerson>)
    ensures Grown(t, AddLegals(t, ls), RepresentativeCount(ls), LegalMandateCount(ls))
    decreases |ls|
  {
    if ls != [] {
      AddLegalsGrowth(AddLegal(t, ls[0]), ls[1..]);
    }
  }

  lemma {:induction false} AddNaturalsGrowth(t: AdminTable, ns: seq<NaturalPerson>)
    ensures Grown(t, AddNaturals(t, ns), |ns|, NaturalMandateCount(ns))
    decreases |ns|
  {
    if ns != [] {
      AddNaturalsGrowth(AddNatural(t, ns[0]), ns[1..]);
    }
  }

  lemma {:induction false} AddGroupsGrowth(t: AdminTable, gs: seq<AdminGroup>)
    ensures Grown(t, AddGroups(t, gs), RowCount(gs), MandateCount(gs))
    decreases |gs|
  {
    if gs != [] {
      var u := AddGroup(t, gs[0]);
      match gs[0] {
        case LegalPersons(ls) => AddLegalsGrowth(t, ls);
        case NaturalPersons(ns) => AddNaturalsGrowth(t, ns);
        case OtherGroup(_) =>
      }
      AddGroupsGrowth(u, gs[1..]);
    }
  }

  /**
   * The representatives, their addresses and the three entity columns always
   * have the same length: the representatives of all legal persons plus the
   * natural persons. The mandate column has one entry per mandate, or one
   * "NA" for an administrator without mandates.
   */
  lemma AdministratorColumnLengths(gs: seq<AdminGroup>)
    ensures var t := AdministratorsTable(gs);
      && |t.representatives| == RowCount(gs)
      && |t.repAddress| == RowCount(gs)
      && |t.entity| == RowCount(gs)
      && |t.entityId| == RowCount(gs)
      && |t.entityAddress| == RowCount(gs)
      && |t.mandate| == MandateCount(gs)
  {
    AddGroupsGrowth(EmptyTable, gs);
  }
  lemma {:induction false} AddGroupsConcat(t: AdminTable, a: seq<AdminGroup>, b: seq<AdminGroup>)
    ensures AddGroups(t, a + b) == AddGroups(AddGroups(t, a), b)
    decreases |a|
  {
    if a == [] {
      assert a + b == b;
    } else {
      assert (a + b)[1..] == a[1..] + b;
      AddGroupsConcat(AddGroup(t, a[0]), a[1..], b);
    }
  }

  /** An entry under a key other than `LegalPersons` or `NaturalPersons` adds nothing to the table. */
  lemma OtherGroupIgnored(a: seq<AdminGroup>, key: string, b: seq<AdminGroup>)
    ensures AdministratorsTable(a + [OtherGroup(key)] + b) == AdministratorsTable(a + b)
  {
    AddGroupsConcat(EmptyTable, a + [OtherGroup(key)], b);
    AddGroupsConcat(EmptyTable, a, [OtherGroup(key)]);
    AddGroupsConcat(EmptyTable, a, b);
  }

  lemma RepeatCons<T>(a: seq<T>, x: T, n: nat)
    ensures a + [x] + Repeat(x, n) == a + Repeat(x, n + 1)
  {
    assert [x] + Repeat(x, n) == Repeat(x, n + 1);
  }

  /**
   * Natural persons fill the three entity columns with "NA", one per
   * person, and leave what came before untouched.
   */
  lemma {:induction false} NaturalPersonsHaveNoEntity(t: AdminTable, ns: seq<NaturalPerson>)
    ensures AddNaturals(t, ns).entity == t.entity + Repeat(Str("NA"), |ns|)
    ensures AddNaturals(t, ns).entityId == t.entityId + Repeat(Str("NA"), |ns|)
    ensures AddNaturals(t, ns).entityAddress == t.entityAddress + Repeat("NA", |ns|)
    decreases |ns|
  {
    if ns == [] {
      assert t.entity + [] == t.entity && t.entityId + [] == t.entityId && t.entityAddress + [] == t.entityAddress;
    } else {
      var u := AddNatural(t, ns[0]);
      assert u.entity == t.entity + [Str("NA")] && u.entityId == t.entityId + [Str("NA")];
      assert u.entityAddress == t.entityAddress + ["NA"];
      NaturalPersonsHaveNoEntity(u, ns[1..]);
      RepeatCons(t.entity, Str("NA"), |ns| - 1);
      RepeatCons(t.entityId, Str("NA"), |ns| - 1);
      RepeatCons(t.entityAddress, "NA", |ns| - 1);
    }
  }
}
