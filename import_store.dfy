/** Spreadsheet import of payables and receivables: the find-or-create
    lookups of the GSI classification, banks and people, the row loops, and
    the upload log. The tables the import touches are modelled as sequences
    in insertion order, so "find first" is the first match in that order. */
module ImportStore {
  import opened Common
  import opened ImportParsing

  // ---------------------------------------------------------------------------
  // Rows of the tables the import reads and writes
  // ---------------------------------------------------------------------------

  datatype GsiGroup = GsiGroup(id: Id, codigo: string, nome: string, descricao: string)

  datatype GsiSubgroup = GsiSubgroup(id: Id, groupId: Id, codigo: string, nome: string, descricao: string)

  datatype GsiItem = GsiItem(id: Id, subgroupId: Id, codigo: string, nome: string, descricao: string)

  datatype Bank = Bank(id: Id, nome: string, codigo: string, agencia: string, conta: string, tipo: string)

  datatype Person = Person(id: Id, tipo: PersonType, nome: string, documento: Option<string>)

  /** A payable as the import creates it. The amount is the cell text handed
      to `parseFloat`; the due date is what `parseDate` produced. */
  datatype ImportedPayable = ImportedPayable(
    id: Id,
    gsiItemId: Id,
    bankId: Id,
    personId: Id,
    descricao: string,
    valor: string,
    dataVencimento: CalendarDate,
    status: PayableStatus,
    formaPagamento: Option<string>,
    observacao: Option<string>)

  /** A receivable as the import creates it (amounts as cell text). */
  datatype ImportedReceivable = ImportedReceivable(
    id: Id,
    gsiItemId: Id,
    bankId: Id,
    personId: Id,
    origem: ReceivableOrigin,
    valorPrevisto: string,
    valorRecebido: string,
    valorGlosa: string,
    status: ReceivableStatus,
    dataPrevista: CalendarDate,
    observacao: Option<string>)

  /** Why the database refused a row's insert. */
  datatype ImportFailure = InvalidDateValue

  /** One entry of the error list: the spreadsheet line (the header is line
      1, so row `i` is line `i + 2`), the failure and the row itself. */
  datatype RowError = RowError(row: nat, error: ImportFailure, data: Row)

  datatype UploadResult = UploadResult(totalRows: nat, successRows: nat, errorRows: nat, errors: seq<RowError>)

  datatype UploadLog = UploadLog(fileName: string, fileType: string, totalRows: nat, successRows: nat, errorRows: nat, errors: seq<RowError>)

  /** The parts of the uploaded file the service looks at besides its rows. */
  datatype UploadedFile = UploadedFile(originalname: string, mimetype: string)

  /** Every table the import touches, and the next fresh identifier. */
  datatype Tables = Tables(
    groups: seq<GsiGroup>,
    subgroups: seq<GsiSubgroup>,
    items: seq<GsiItem>,
    banks: seq<Bank>,
    persons: seq<Person>,
    payables: seq<ImportedPayable>,
    receivables: seq<ImportedReceivable>,
    logs: seq<UploadLog>,
    nextId: Id)

  /** The tables after a lookup, and the id the lookup answers. */
  datatype Found = Found(tables: Tables, id: Id)

  // ---------------------------------------------------------------------------
  // Columns and defaults
  // ---------------------------------------------------------------------------

  const AutoDescription: string := "Criado automaticamente via importação"

  const ItemCodeColumns: seq<string> := ["gsiCodigo", "gsi_codigo", "codigo_gsi"]
  const ItemNameColumns: seq<string> := ["gsiNome", "gsi_nome", "nome_gsi"]
  const BankNameColumns: seq<string> := ["banco", "bank", "bancoNome"]
  const BankCodeColumns: seq<string> := ["bancoCodigo", "bank_codigo"]
  const AccountTypeColumns: seq<string> := ["tipoConta", "tipo_conta"]
  const PersonNameColumns: seq<string> := ["fornecedor", "pessoa", "nome", "person"]
  const DocumentColumns: seq<string> := ["documento", "cnpj", "cpf"]
  const NoteColumns: seq<string> := ["observacao", "observação"]
  const DueDateColumns: seq<string> := ["dataVencimento", "data_vencimento", "data vencimento"]
  const ExpectedDateColumns: seq<string> := ["dataPrevista", "data_prevista", "data prevista"]

  // ---------------------------------------------------------------------------
  // Table invariants
  // ---------------------------------------------------------------------------

  /** Every identifier in use is below the counter, so the counter is fresh. */
  predicate IdsBelow(t: Tables)
  {
    && (forall g :: g in t.groups ==> g.id < t.nextId)
    && (forall s :: s in t.subgroups ==> s.id < t.nextId)
    && (forall i :: i in t.items ==> i.id < t.nextId)
    && (forall b :: b in t.banks ==> b.id < t.nextId)
    && (forall p :: p in t.persons ==> p.id < t.nextId)
    && (forall p :: p in t.payables ==> p.id < t.nextId)
    && (forall r :: r in t.receivables ==> r.id < t.nextId)
  }

  function GroupIds(t: Tables): set<Id> { set g | g in t.groups :: g.id }
  function SubgroupIds(t: Tables): set<Id> { set s | s in t.subgroups :: s.id }
  function ItemIds(t: Tables): set<Id> { set i | i in t.items :: i.id }
  function BankIds(t: Tables): set<Id> { set b | b in t.banks :: b.id }
  function PersonIds(t: Tables): set<Id> { set p | p in t.persons :: p.id }

  /** Tables holding the same rows of a kind hold the same ids of that kind. */
  lemma SameIds(a: Tables, b: Tables)
    ensures a.groups == b.groups ==> GroupIds(a) == GroupIds(b)
    ensures a.subgroups == b.subgroups ==> SubgroupIds(a) == SubgroupIds(b)
    ensures a.items == b.items ==> ItemIds(a) == ItemIds(b)
    ensures a.banks == b.banks ==> BankIds(a) == BankIds(b)
    ensures a.persons == b.persons ==> PersonIds(a) == PersonIds(b)
  {
  }

  /** Every foreign key names an existing row. */
  predicate Linked(t: Tables)
  {
    && (forall s :: s in t.subgroups ==> s.groupId in GroupIds(t))
    && (forall i :: i in t.items ==> i.subgroupId in SubgroupIds(t))
    && (forall p :: p in t.payables ==> p.gsiItemId in ItemIds(t) && p.bankId in BankIds(t) && p.personId in PersonIds(t))
    && (forall r :: r in t.receivables ==> r.gsiItemId in ItemIds(t) && r.bankId in BankIds(t) && r.personId in PersonIds(t))
  }

  /** `u` only adds rows to `t`: every table of `t` is a prefix of `u`'s. */
  predicate Extends(t: Tables, u: Tables)
  {
    && t.groups <= u.groups && t.subgroups <= u.subgroups && t.items <= u.items
    && t.banks <= u.banks && t.persons <= u.persons
    && t.payables <= u.payables && t.receivables <= u.receivables && t.logs <= u.logs
    && t.nextId <= u.nextId
  }

  // ---------------------------------------------------------------------------
  // findFirst
  // ---------------------------------------------------------------------------

  /** `findFirst({ where })`: the index of the first row the condition holds for. */
  function FindFirst<T>(s: seq<T>, hit: T -> bool): (r: Option<nat>)
    ensures r.Some? ==> r.value < |s|
    decreases |s|
  {
    if s == [] then None
    else if hit(s[0]) then Some(0)
    else match FindFirst(s[1..], hit)
      case None => None
      case Some(k) => Some(k + 1)
  }

  /** The index found holds the first row the condition holds for, and none
      is found only when the condition holds for no row. */
  lemma {:induction false} FindFirstSpec<T>(s: seq<T>, hit: T -> bool)
    ensures var r := FindFirst(s, hit);
      && (r.Some? ==> hit(s[r.value]) && forall j :: 0 <= j < r.value ==> !hit(s[j]))
      && (r.None? ==> forall j :: 0 <= j < |s| ==> !hit(s[j]))
    decreases |s|
  {
    if s != [] && !hit(s[0]) {
      FindFirstSpec(s[1..], hit);
      assert forall j :: 0 < j < |s| ==> s[j] == s[1..][j - 1];
    }
  }

  /** Appending a row nobody looks for, or looking for a row found earlier,
      leaves the first match where it was. */
  lemma FindFirstAppend<T>(s: seq<T>, x: T, hit: T -> bool)
    ensures FindFirst(s, hit).Some? ==> FindFirst(s + [x], hit) == FindFirst(s, hit)
    ensures FindFirst(s, hit).None? && hit(x) ==> FindFirst(s + [x], hit) == Some(|s|)
    ensures FindFirst(s, hit).None? && !hit(x) ==> FindFirst(s + [x], hit).None?
  {
    var s' := s + [x];
    FindFirstSpec(s, hit);
    match FindFirst(s, hit)
    case Some(k) =>
      assert forall j :: 0 <= j <= k ==> s'[j] == s[j];
      FindFirstIs(s', hit, k);
    case None =>
      assert forall j :: 0 <= j < |s| ==> s'[j] == s[j];
      if hit(x) {
        assert s'[|s|] == x;
        FindFirstIs(s', hit, |s|);
      } else {
        FindFirstNone(s', hit);
      }
  }

  /** Nothing is found when the condition holds for no row. */
  lemma {:induction false} FindFirstNone<T>(s: seq<T>, hit: T -> bool)
    requires forall j :: 0 <= j < |s| ==> !hit(s[j])
    ensures FindFirst(s, hit).None?
    decreases |s|
  {
    if s != [] {
      assert forall j :: 0 <= j < |s| - 1 ==> s[1..][j] == s[j + 1];
      FindFirstNone(s[1..], hit);
    }
  }

  /** The first match is determined by where the condition first holds. */
  lemma {:induction false} FindFirstIs<T>(s: seq<T>, hit: T -> bool, k: nat)
    requires k < |s| && hit(s[k]) && forall j :: 0 <= j < k ==> !hit(s[j])
    ensures FindFirst(s, hit) == Some(k)
    decreases k
  {
    if k > 0 {
      assert !hit(s[0]);
      assert forall j :: 0 <= j < k - 1 ==> s[1..][j] == s[j + 1];
      FindFirstIs(s[1..], hit, k - 1);
    }
  }

  function GroupCoded(codigo: string): GsiGroup -> bool { (g: GsiGroup) => g.codigo == codigo }
  function SubgroupCoded(codigo: string, groupId: Id): GsiSubgroup -> bool { (s: GsiSubgroup) => s.codigo == codigo && s.groupId == groupId }
  function ItemCoded(codigo: string): GsiItem -> bool { (i: GsiItem) => i.codigo == codigo }
  function BankCoded(codigo: string): Bank -> bool { (b: Bank) => b.codigo == codigo }
  function PersonNamed(nome: string, tipo: PersonType): Person -> bool { (p: Person) => p.nome == nome && p.tipo == tipo }

  // ---------------------------------------------------------------------------
  // Find-or-create
  // ---------------------------------------------------------------------------

  /** The GSI group with this code, created as "Grupo <code>" when missing. */
  function GroupFor(t: Tables, codigo: string): (f: Found)
  {
    match FindFirst(t.groups, GroupCoded(codigo))
    case Some(k) => Found(t, t.groups[k].id)
    case None =>
      var g := GsiGroup(t.nextId, codigo, "Grupo " + codigo, AutoDescription);
      Found(t.(groups := t.groups + [g], nextId := t.nextId + 1), g.id)
  }

  /** The subgroup with this code under this group, created when missing. */
  function SubgroupFor(t: Tables, codigo: string, groupId: Id): (f: Found)
  {
    match FindFirst(t.subgroups, SubgroupCoded(codigo, groupId))
    case Some(k) => Found(t, t.subgroups[k].id)
    case None =>
      var s := GsiSubgroup(t.nextId, groupId, codigo, "Subgrupo " + codigo, AutoDescription);
      Found(t.(subgroups := t.subgroups + [s], nextId := t.nextId + 1), s.id)
  }

  /** The item code of a row, "01.01.001" when none is given. */
  function ItemCode(row: Row): string { FirstFilled(row, ItemCodeColumns, "01.01.001") }

  /** The item name of a row, "Item GSI" when none is given. */
  function ItemName(row: Row): string { FirstFilled(row, ItemNameColumns, "Item GSI") }

  /** `findOrCreateGSIItem` on the row's code and name. */
  function GsiItemFor(t: Tables, row: Row): (f: Found)
  {
    ItemFor(t, ItemCode(row), ItemName(row))
  }

  /** The item with this code; when missing, its group and subgroup are
      found or created from the code's first one and two dot-pieces, then the
      item is created under them. */
  function ItemFor(t: Tables, codigo: string, nome: string): (f: Found)
  {
    match FindFirst(t.items, ItemCoded(codigo))
    case Some(k) => Found(t, t.items[k].id)
    case None => CreateItem(t, codigo, nome)
  }

  /** The creation path of `findOrCreateGSIItem`. */
  function CreateItem(t: Tables, codigo: string, nome: string): (f: Found)
  {
    var g := GroupFor(t, GroupCode(codigo));
    var s := SubgroupFor(g.tables, SubgroupCode(codigo), g.id);
    var u := s.tables;
    Found(u.(items := u.items + [GsiItem(u.nextId, s.id, codigo, nome, AutoDescription)], nextId := u.nextId + 1), u.nextId)
  }

  /** `findOrCreateBank`: the bank with the row's code (default "001"),
      created from the row's other bank columns when missing. */
  function BankFor(t: Tables, row: Row): (f: Found)
  {
    var codigo := FirstFilled(row, BankCodeColumns, "001");
    match FindFirst(t.banks, BankCoded(codigo))
    case Some(k) => Found(t, t.banks[k].id)
    case None =>
      var b := Bank(t.nextId, FirstFilled(row, BankNameColumns, "Banco Padrão"), codigo,
                    FirstFilled(row, ["agencia"], "0001"), FirstFilled(row, ["conta"], "00000000"),
                    FirstFilled(row, AccountTypeColumns, "CORRENTE"));
      Found(t.(banks := t.banks + [b], nextId := t.nextId + 1), b.id)
  }

  /** `findOrCreatePerson`: the person with the row's name (default "Pessoa
      Padrão") and the given role, created with the row's document when missing. */
  function PersonFor(t: Tables, row: Row, tipo: PersonType): (f: Found)
  {
    var nome := FirstFilled(row, PersonNameColumns, "Pessoa Padrão");
    match FindFirst(t.persons, PersonNamed(nome, tipo))
    case Some(k) => Found(t, t.persons[k].id)
    case None =>
      var p := Person(t.nextId, tipo, nome, OptionalCell(row, DocumentColumns));
      Found(t.(persons := t.persons + [p], nextId := t.nextId + 1), p.id)
  }

  // ---------------------------------------------------------------------------
  // Properties of the lookups
  // ---------------------------------------------------------------------------

  /** Only the catalogue tables and the counter change; imported accounts and
      logs do not. */
  predicate CatalogGrows(t: Tables, u: Tables)
  {
    Extends(t, u) && u.payables == t.payables && u.receivables == t.receivables && u.logs == t.logs
  }

  /** Appending a group with the fresh id keeps both table invariants. */
  lemma AddGroup(t: Tables, g: GsiGroup)
    requires IdsBelow(t) && Linked(t) && g.id == t.nextId
    ensures var u := t.(groups := t.groups + [g], nextId := t.nextId + 1);
      IdsBelow(u) && Linked(u) && GroupIds(u) == GroupIds(t) + {g.id} && g.id !in GroupIds(t)
  {
    var u := t.(groups := t.groups + [g], nextId := t.nextId + 1);
    SameIds(t, u);
    assert GroupIds(u) == GroupIds(t) + {g.id};
  }

  /** The group lookup keeps the invariants and answers a stored group. */
  lemma GroupForSound(t: Tables, codigo: string)
    requires IdsBelow(t) && Linked(t)
    ensures var f := GroupFor(t, codigo);
      IdsBelow(f.tables) && Linked(f.tables) && f.id in GroupIds(f.tables)
  {
    var found := FindFirst(t.groups, GroupCoded(codigo));
    if found.Some? {
      assert GroupFor(t, codigo) == Found(t, t.groups[found.value].id);
      assert t.groups[found.value] in t.groups;
    } else {
      var g := GsiGroup(t.nextId, codigo, "Grupo " + codigo, AutoDescription);
      var u := t.(groups := t.groups + [g], nextId := t.nextId + 1);
      assert GroupFor(t, codigo) == Found(u, g.id);
      AddGroup(t, g);
    }
  }

  /** The group lookup touches only the group table and the counter; a group
      it creates is "Grupo <code>" with a fresh id. */
  lemma GroupForGrows(t: Tables, codigo: string)
    requires IdsBelow(t)
    ensures var f := GroupFor(t, codigo);
      && CatalogGrows(t, f.tables)
      && f.tables.subgroups == t.subgroups && f.tables.items == t.items
      && f.tables.banks == t.banks && f.tables.persons == t.persons
      && (f.tables != t ==> f.tables.groups == t.groups + [GsiGroup(t.nextId, codigo, "Grupo " + codigo, AutoDescription)]
                            && f.id == t.nextId && f.id !in GroupIds(t))
  {
  }

  /** The group answered has the code asked for; one is created exactly when
      none existed, and asking again creates nothing. */
  lemma GroupForFinds(t: Tables, codigo: string)
    ensures var f := GroupFor(t, codigo);
      && (exists g :: g in f.tables.groups && g.id == f.id && g.codigo == codigo)
      && (f.tables == t <==> exists g :: g in t.groups && g.codigo == codigo)
      && GroupFor(f.tables, codigo) == f
  {
    var f := GroupFor(t, codigo);
    var found := FindFirst(t.groups, GroupCoded(codigo));
    FindFirstSpec(t.groups, GroupCoded(codigo));
    if found.Some? {
      assert t.groups[found.value] in t.groups;
    } else {
      var g := GsiGroup(t.nextId, codigo, "Grupo " + codigo, AutoDescription);
      FindFirstAppend(t.groups, g, GroupCoded(codigo));
      assert g in f.tables.groups;
      assert f.tables != t by {
        assert |f.tables.groups| != |t.groups|;
      }
      forall x | x in t.groups
        ensures x.codigo != codigo
      {
        var j :| 0 <= j < |t.groups| && t.groups[j] == x;
        assert !GroupCoded(codigo)(t.groups[j]);
      }
    }
  }

  /** Appending a subgroup with the fresh id under an existing group keeps
      both table invariants. */
  lemma AddSubgroup(t: Tables, sg: GsiSubgroup)
    requires IdsBelow(t) && Linked(t) && sg.id == t.nextId && sg.groupId in GroupIds(t)
    ensures var u := t.(subgroups := t.subgroups + [sg], nextId := t.nextId + 1);
      IdsBelow(u) && Linked(u) && SubgroupIds(u) == SubgroupIds(t) + {sg.id} && sg.id !in SubgroupIds(t)
  {
    var u := t.(subgroups := t.subgroups + [sg], nextId := t.nextId + 1);
    SameIds(t, u);
    assert SubgroupIds(u) == SubgroupIds(t) + {sg.id};
  }

  lemma AddBank(t: Tables, b: Bank)
    requires IdsBelow(t) && Linked(t) && b.id == t.nextId
    ensures var u := t.(banks := t.banks + [b], nextId := t.nextId + 1);
      IdsBelow(u) && Linked(u) && BankIds(u) == BankIds(t) + {b.id} && b.id !in BankIds(t)
  {
    var u := t.(banks := t.banks + [b], nextId := t.nextId + 1);
    SameIds(t, u);
    assert BankIds(u) == BankIds(t) + {b.id};
  }

  lemma AddPerson(t: Tables, p: Person)
    requires IdsBelow(t) && Linked(t) && p.id == t.nextId
    ensures var u := t.(persons := t.persons + [p], nextId := t.nextId + 1);
      IdsBelow(u) && Linked(u) && PersonIds(u) == PersonIds(t) + {p.id} && p.id !in PersonIds(t)
  {
    var u := t.(persons := t.persons + [p], nextId := t.nextId + 1);
    SameIds(t, u);
    assert PersonIds(u) == PersonIds(t) + {p.id};
  }

  /** The subgroup lookup under a stored group keeps the invariants and
      answers a stored subgroup. */
  lemma SubgroupForSound(t: Tables, codigo: string, groupId: Id)
    requires IdsBelow(t) && Linked(t) && groupId in GroupIds(t)
    ensures var f := SubgroupFor(t, codigo, groupId);
      IdsBelow(f.tables) && Linked(f.tables) && f.id in SubgroupIds(f.tables)
  {
    var found := FindFirst(t.subgroups, SubgroupCoded(codigo, groupId));
    if found.Some? {
      assert SubgroupFor(t, codigo, groupId) == Found(t, t.subgroups[found.value].id);
      assert t.subgroups[found.value] in t.subgroups;
    } else {
      var sg := GsiSubgroup(t.nextId, groupId, codigo, "Subgrupo " + codigo, AutoDescription);
      var u := t.(subgroups := t.subgroups + [sg], nextId := t.nextId + 1);
      assert SubgroupFor(t, codigo, groupId) == Found(u, sg.id);
      AddSubgroup(t, sg);
    }
  }

  /** The subgroup lookup touches only the subgroup table and the counter; a
      subgroup it creates is "Subgrupo <code>" under the group, with a fresh id. */
  lemma SubgroupForGrows(t: Tables, codigo: string, groupId: Id)
    requires IdsBelow(t)
    ensures var f := SubgroupFor(t, codigo, groupId);
      && CatalogGrows(t, f.tables)
      && f.tables.groups == t.groups && f.tables.items == t.items
      && f.tables.banks == t.banks && f.tables.persons == t.persons
      && (f.tables != t ==> f.tables.subgroups == t.subgroups + [GsiSubgroup(t.nextId, groupId, codigo, "Subgrupo " + codigo, AutoDescription)]
                            && f.id == t.nextId && f.id !in SubgroupIds(t))
  {
  }

  /** The subgroup answered has the code and the group asked for; one is
      created exactly when none existed, and asking again creates nothing. */
  lemma SubgroupForFinds(t: Tables, codigo: string, groupId: Id)
    ensures var f := SubgroupFor(t, codigo, groupId);
      && (exists s :: s in f.tables.subgroups && s.id == f.id && s.codigo == codigo && s.groupId == groupId)
      && (f.tables == t <==> exists s :: s in t.subgroups && s.codigo == codigo && s.groupId == groupId)
      && SubgroupFor(f.tables, codigo, groupId) == f
  {
    var f := SubgroupFor(t, codigo, groupId);
    var found := FindFirst(t.subgroups, SubgroupCoded(codigo, groupId));
    FindFirstSpec(t.subgroups, SubgroupCoded(codigo, groupId));
    if found.Some? {
      var x := t.subgroups[found.value];
      assert x in t.subgroups;
      assert SubgroupCoded(codigo, groupId)(x);
    } else {
      var sg := GsiSubgroup(t.nextId, groupId, codigo, "Subgrupo " + codigo, AutoDescription);
      FindFirstAppend(t.subgroups, sg, SubgroupCoded(codigo, groupId));
      assert sg in f.tables.subgroups;
      assert f.tables != t by {
        assert |f.tables.subgroups| != |t.subgroups|;
      }
      forall x | x in t.subgroups
        ensures !(x.codigo == codigo && x.groupId == groupId)
      {
        var j :| 0 <= j < |t.subgroups| && t.subgroups[j] == x;
        assert !SubgroupCoded(codigo, groupId)(t.subgroups[j]);
      }
    }
  }

  /** The bank lookup keeps the invariants and answers a stored bank. */
  lemma BankForSound(t: Tables, row: Row)
    requires IdsBelow(t) && Linked(t)
    ensures var f := BankFor(t, row);
      IdsBelow(f.tables) && Linked(f.tables) && f.id in BankIds(f.tables)
  {
    var f := BankFor(t, row);
    var found := FindFirst(t.banks, BankCoded(FirstFilled(row, BankCodeColumns, "001")));
    if found.Some? {
      assert t.banks[found.value] in t.banks;
    } else {
      var b := f.tables.banks[|t.banks|];
      assert f.tables == t.(banks := t.banks + [b], nextId := t.nextId + 1);
      AddBank(t, b);
    }
  }

  /** The bank lookup touches only the bank table and the counter; a bank it
      creates gets a fresh id. */
  lemma BankForGrows(t: Tables, row: Row)
    requires IdsBelow(t)
    ensures var f := BankFor(t, row);
      && CatalogGrows(t, f.tables)
      && f.tables.groups == t.groups && f.tables.subgroups == t.subgroups
      && f.tables.items == t.items && f.tables.persons == t.persons
      && (f.tables != t ==> |f.tables.banks| == |t.banks| + 1 && f.id == t.nextId && f.id !in BankIds(t))
  {
  }

  /** The bank answered has the row's code; one is created exactly when none
      has it, and asking again creates nothing. */
  lemma BankForFinds(t: Tables, row: Row)
    ensures var f := BankFor(t, row);
      var codigo := FirstFilled(row, BankCodeColumns, "001");
      && (exists b :: b in f.tables.banks && b.id == f.id && b.codigo == codigo)
      && (f.tables == t <==> exists b :: b in t.banks && b.codigo == codigo)
      && BankFor(f.tables, row) == f
  {
    var f := BankFor(t, row);
    var codigo := FirstFilled(row, BankCodeColumns, "001");
    var found := FindFirst(t.banks, BankCoded(codigo));
    FindFirstSpec(t.banks, BankCoded(codigo));
    if found.Some? {
      assert t.banks[found.value] in t.banks;
    } else {
      var b := f.tables.banks[|t.banks|];
      assert f.tables == t.(banks := t.banks + [b], nextId := t.nextId + 1);
      FindFirstAppend(t.banks, b, BankCoded(codigo));
      assert b in f.tables.banks;
      assert f.tables != t by {
        assert |f.tables.banks| != |t.banks|;
      }
      forall x | x in t.banks
        ensures x.codigo != codigo
      {
        var j :| 0 <= j < |t.banks| && t.banks[j] == x;
        assert !BankCoded(codigo)(t.banks[j]);
      }
    }
  }

  /** The person lookup keeps the invariants and answers a stored person. */
  lemma PersonForSound(t: Tables, row: Row, tipo: PersonType)
    requires IdsBelow(t) && Linked(t)
    ensures var f := PersonFor(t, row, tipo);
      IdsBelow(f.tables) && Linked(f.tables) && f.id in PersonIds(f.tables)
  {
    var nome := FirstFilled(row, PersonNameColumns, "Pessoa Padrão");
    var found := FindFirst(t.persons, PersonNamed(nome, tipo));
    if found.Some? {
      assert PersonFor(t, row, tipo) == Found(t, t.persons[found.value].id);
      assert t.persons[found.value] in t.persons;
    } else {
      var p := Person(t.nextId, tipo, nome, OptionalCell(row, DocumentColumns));
      var u := t.(persons := t.persons + [p], nextId := t.nextId + 1);
      assert PersonFor(t, row, tipo) == Found(u, p.id);
      AddPerson(t, p);
    }
  }

  /** The person lookup touches only the person table and the counter; a
      person it creates carries the row's name and document, the role asked
      for and a fresh id. */
  lemma PersonForGrows(t: Tables, row: Row, tipo: PersonType)
    requires IdsBelow(t)
    ensures var f := PersonFor(t, row, tipo);
      var nome := FirstFilled(row, PersonNameColumns, "Pessoa Padrão");
      && CatalogGrows(t, f.tables)
      && f.tables.groups == t.groups && f.tables.subgroups == t.subgroups
      && f.tables.items == t.items && f.tables.banks == t.banks
      && (f.tables != t ==> f.tables.persons == t.persons + [Person(t.nextId, tipo, nome, OptionalCell(row, DocumentColumns))]
                            && f.id == t.nextId && f.id !in PersonIds(t))
  {
  }

  /** The person answered has the row's name and the role asked for; one is
      created exactly when none has both, and asking again creates nothing. */
  lemma PersonForFinds(t: Tables, row: Row, tipo: PersonType)
    ensures var f := PersonFor(t, row, tipo);
      var nome := FirstFilled(row, PersonNameColumns, "Pessoa Padrão");
      && (exists p :: p in f.tables.persons && p.id == f.id && p.nome == nome && p.tipo == tipo)
      && (f.tables == t <==> exists p :: p in t.persons && p.nome == nome && p.tipo == tipo)
      && PersonFor(f.tables, row, tipo) == f
  {
    var f := PersonFor(t, row, tipo);
    var nome := FirstFilled(row, PersonNameColumns, "Pessoa Padrão");
    var found := FindFirst(t.persons, PersonNamed(nome, tipo));
    FindFirstSpec(t.persons, PersonNamed(nome, tipo));
    if found.Some? {
      assert t.persons[found.value] in t.persons;
    } else {
      var p := Person(t.nextId, tipo, nome, OptionalCell(row, DocumentColumns));
      FindFirstAppend(t.persons, p, PersonNamed(nome, tipo));
      assert p in f.tables.persons;
      assert f.tables != t by {
        assert |f.tables.persons| != |t.persons|;
      }
      forall x | x in t.persons
        ensures !(x.nome == nome && x.tipo == tipo)
      {
        var j :| 0 <= j < |t.persons| && t.persons[j] == x;
        assert !PersonNamed(nome, tipo)(t.persons[j]);
      }
    }
  }

  lemma AddItem(t: Tables, item: GsiItem)
    requires IdsBelow(t) && Linked(t) && item.id == t.nextId && item.subgroupId in SubgroupIds(t)
    ensures var u := t.(items := t.items + [item], nextId := t.nextId + 1);
      IdsBelow(u) && Linked(u) && ItemIds(u) == ItemIds(t) + {item.id} && item.id !in ItemIds(t)
  {
    var u := t.(items := t.items + [item], nextId := t.nextId + 1);
    SameIds(t, u);
    assert ItemIds(u) == ItemIds(t) + {item.id};
  }

  /** Creating an item (with its group and subgroup when they are missing)
      keeps the table invariants. */
  lemma CreateItemSpec(t: Tables, codigo: string, nome: string)
    requires IdsBelow(t) && Linked(t)
    ensures var f := CreateItem(t, codigo, nome);
      IdsBelow(f.tables) && Linked(f.tables)
  {
    var g := GroupFor(t, GroupCode(codigo));
    GroupForSound(t, GroupCode(codigo));
    var sub := SubgroupFor(g.tables, SubgroupCode(codigo), g.id);
    SubgroupForSound(g.tables, SubgroupCode(codigo), g.id);
    var u := sub.tables;
    var item := GsiItem(u.nextId, sub.id, codigo, nome, AutoDescription);
    assert CreateItem(t, codigo, nome) == Found(u.(items := u.items + [item], nextId := u.nextId + 1), item.id);
    AddItem(u, item);
  }

  /** Creating an item touches only the GSI tables and the counter, and the
      item gets an id no stored item has. */
  lemma CreateItemGrows(t: Tables, codigo: string, nome: string)
    requires IdsBelow(t) && Linked(t)
    ensures var f := CreateItem(t, codigo, nome);
      && CatalogGrows(t, f.tables) && f.tables.banks == t.banks && f.tables.persons == t.persons
      && f.id !in ItemIds(t)
  {
    var g := GroupFor(t, GroupCode(codigo));
    GroupForGrows(t, GroupCode(codigo));
    var sub := SubgroupFor(g.tables, SubgroupCode(codigo), g.id);
    SubgroupForGrows(g.tables, SubgroupCode(codigo), g.id);
    var u := sub.tables;
    assert CatalogGrows(t, u);
    assert u.items == t.items;
  }

  /** Creating an item appends exactly the item, under a subgroup coded by
      the first two dot-pieces of its code, itself under a group coded by the
      first piece. */
  lemma CreateItemFinds(t: Tables, codigo: string, nome: string)
    ensures var f := CreateItem(t, codigo, nome);
      && (exists item :: f.tables.items == t.items + [item] && item.id == f.id && item.codigo == codigo && item.nome == nome)
      && (exists i, s, g :: i in f.tables.items && i.id == f.id && i.codigo == codigo
                            && s in f.tables.subgroups && s.id == i.subgroupId && s.codigo == SubgroupCode(codigo)
                            && g in f.tables.groups && g.id == s.groupId && g.codigo == GroupCode(codigo))
  {
    var f := CreateItem(t, codigo, nome);
    var g := GroupFor(t, GroupCode(codigo));
    GroupForFinds(t, GroupCode(codigo));
    var gr :| gr in g.tables.groups && gr.id == g.id && gr.codigo == GroupCode(codigo);
    var sub := SubgroupFor(g.tables, SubgroupCode(codigo), g.id);
    SubgroupForFinds(g.tables, SubgroupCode(codigo), g.id);
    var sg :| sg in sub.tables.subgroups && sg.id == sub.id && sg.codigo == SubgroupCode(codigo) && sg.groupId == g.id;
    var u := sub.tables;
    var item := GsiItem(u.nextId, sub.id, codigo, nome, AutoDescription);
    assert f.tables.items == u.items + [item];
    assert item in f.tables.items;
    assert gr in f.tables.groups by {
      assert g.tables.groups <= f.tables.groups;
    }
  }

  /** The item lookup keeps the invariants and answers the id of a stored
      item. */
  lemma ItemForSound(t: Tables, codigo: string, nome: string)
    requires IdsBelow(t) && Linked(t)
    ensures var f := ItemFor(t, codigo, nome);
      IdsBelow(f.tables) && Linked(f.tables) && f.id in ItemIds(f.tables)
  {
    var f := ItemFor(t, codigo, nome);
    var found := FindFirst(t.items, ItemCoded(codigo));
    if found.Some? {
      assert t.items[found.value] in t.items;
    } else {
      assert f == CreateItem(t, codigo, nome);
      CreateItemSpec(t, codigo, nome);
      CreateItemFinds(t, codigo, nome);
    }
  }

  /** The item lookup touches only the GSI tables and the counter. */
  lemma ItemForGrows(t: Tables, codigo: string, nome: string)
    requires IdsBelow(t) && Linked(t)
    ensures var f := ItemFor(t, codigo, nome);
      CatalogGrows(t, f.tables) && f.tables.banks == t.banks && f.tables.persons == t.persons
  {
    if FindFirst(t.items, ItemCoded(codigo)).None? {
      CreateItemGrows(t, codigo, nome);
    }
  }

  /** The item answered has the code asked for, and an item is created
      exactly when none has it. */
  lemma ItemForFinds(t: Tables, codigo: string, nome: string)
    ensures var f := ItemFor(t, codigo, nome);
      && (exists i :: i in f.tables.items && i.id == f.id && i.codigo == codigo)
      && (f.tables.items == t.items <==> exists i :: i in t.items && i.codigo == codigo)
  {
    var f := ItemFor(t, codigo, nome);
    var found := FindFirst(t.items, ItemCoded(codigo));
    FindFirstSpec(t.items, ItemCoded(codigo));
    if found.Some? {
      var x := t.items[found.value];
      assert x in t.items;
      assert ItemCoded(codigo)(x);
    } else {
      assert f == CreateItem(t, codigo, nome);
      CreateItemFinds(t, codigo, nome);
      var item :| f.tables.items == t.items + [item] && item.id == f.id && item.codigo == codigo && item.nome == nome;
      assert item in f.tables.items;
      assert |f.tables.items| == |t.items| + 1;
      forall x | x in t.items
        ensures x.codigo != codigo
      {
        var j :| 0 <= j < |t.items| && t.items[j] == x;
        assert !ItemCoded(codigo)(t.items[j]);
      }
    }
  }

  /** Looking the same item up again creates nothing and answers the same id. */
  lemma ItemForIdempotent(t: Tables, codigo: string, nome: string)
    ensures ItemFor(ItemFor(t, codigo, nome).tables, codigo, nome) == ItemFor(t, codigo, nome)
  {
    var f := ItemFor(t, codigo, nome);
    if FindFirst(t.items, ItemCoded(codigo)).None? {
      CreateItemFinds(t, codigo, nome);
      var item :| f.tables.items == t.items + [item] && item.id == f.id && item.codigo == codigo && item.nome == nome;
      FindFirstAppend(t.items, item, ItemCoded(codigo));
    }
  }

  // ---------------------------------------------------------------------------
  // One row
  // ---------------------------------------------------------------------------

  /** Which table an upload fills. */
  datatype Target = PayableTarget | ReceivableTarget

  /** The tables after one row, and the error entry when the row failed. */
  datatype RowOutcome = RowOutcome(tables: Tables, error: Option<RowError>)

  /** The date a row's account is created with. */
  function RowDate(target: Target, row: Row, native: string -> Option<Timestamp>, now: Timestamp): CalendarDate
  {
    match target
    case PayableTarget => ParseDate(FirstFilled(row, DueDateColumns, ""), native, now)
    case ReceivableTarget => ParseDate(FirstFilled(row, ExpectedDateColumns, ""), native, now)
  }

  /** A row fails when its date is an Invalid Date, which the database refuses. */
  predicate RowFails(target: Target, row: Row, native: string -> Option<Timestamp>, now: Timestamp)
  {
    RowDate(target, row, native, now).InvalidDate?
  }

  /** The origin of a receivable row, PACIENTE when none is given. */
  function RowOrigin(row: Row): ReceivableOrigin
  {
    ParseOrigin(FirstFilled(row, ["origem", "origem"], "PACIENTE"))
  }

  /** The person role a row is looked up with: FORNECEDOR for payables; for
      receivables CONVENIO when the origin is CONVENIO, else PACIENTE. */
  function RowPersonType(target: Target, row: Row): PersonType
  {
    match target
    case PayableTarget => PersonType.Fornecedor
    case ReceivableTarget => PersonTypeFor(RowOrigin(row))
  }

  /** The payable a row creates, given the looked-up ids and its due date. */
  function NewPayable(id: Id, itemId: Id, bankId: Id, personId: Id, row: Row, due: CalendarDate): ImportedPayable
  {
    ImportedPayable(id, itemId, bankId, personId,
                    FirstFilled(row, ["descricao", "descricao"], "Importado via planilha"),
                    FirstFilled(row, ["valor", "valor"], "0"),
                    due,
                    OrElse(ParsePayableStatus(Cell(row, "status")), PayableStatus.Aberto),
                    CellChain(row, ["formaPagamento", "forma_pagamento"]),
                    CellChain(row, NoteColumns))
  }

  /** The receivable a row creates, given the looked-up ids and its expected date. */
  function NewReceivable(id: Id, itemId: Id, bankId: Id, personId: Id, row: Row, expected: CalendarDate): ImportedReceivable
  {
    ImportedReceivable(id, itemId, bankId, personId, RowOrigin(row),
                       FirstFilled(row, ["valorPrevisto", "valor_previsto", "valor"], "0"),
                       FirstFilled(row, ["valorRecebido", "valor_recebido"], "0"),
                       FirstFilled(row, ["valorGlosa", "valor_glosa"], "0"),
                       OrElse(ParseReceivableStatus(Cell(row, "status")), ReceivableStatus.Aberto),
                       expected,
                       CellChain(row, NoteColumns))
  }

  /** The tables after a row's three lookups, and the ids they answered. */
  datatype Refs = Refs(tables: Tables, itemId: Id, bankId: Id, personId: Id)

  /** The lookups at the top of the row loop's body: GSI item, bank, then
      the person in the role the target and the row's origin call for. */
  function RowLookups(target: Target, t: Tables, row: Row): Refs
  {
    var item := GsiItemFor(t, row);
    var bank := BankFor(item.tables, row);
    var person := PersonFor(bank.tables, row, RowPersonType(target, row));
    Refs(person.tables, item.id, bank.id, person.id)
  }

  /** The insert: refused on an Invalid Date (reported as line `i + 2`),
      otherwise one account appended to the target table. */
  function Insert(target: Target, r: Refs, row: Row, i: nat, date: CalendarDate): RowOutcome
  {
    var u := r.tables;
    if date.InvalidDate? then RowOutcome(u, Some(RowError(i + 2, InvalidDateValue, row)))
    else match target
      case PayableTarget =>
        RowOutcome(u.(payables := u.payables + [NewPayable(u.nextId, r.itemId, r.bankId, r.personId, row, date)], nextId := u.nextId + 1), None)
      case ReceivableTarget =>
        RowOutcome(u.(receivables := u.receivables + [NewReceivable(u.nextId, r.itemId, r.bankId, r.personId, row, date)], nextId := u.nextId + 1), None)
  }

  /** The body of the row loop: the lookups (which may create rows even when
      the insert then fails), then the insert. */
  function ImportRow(target: Target, t: Tables, row: Row, i: nat, native: string -> Option<Timestamp>, now: Timestamp): RowOutcome
  {
    Insert(target, RowLookups(target, t, row), row, i, RowDate(target, row, native, now))
  }

  /** The lookups keep the table invariants and answer ids of stored rows. */
  lemma RowLookupsSound(target: Target, t: Tables, row: Row)
    requires IdsBelow(t) && Linked(t)
    ensures var r := RowLookups(target, t, row);
      && IdsBelow(r.tables) && Linked(r.tables)
      && r.itemId in ItemIds(r.tables) && r.bankId in BankIds(r.tables) && r.personId in PersonIds(r.tables)
  {
    var item := GsiItemFor(t, row);
    ItemForSound(t, ItemCode(row), ItemName(row));
    var bank := BankFor(item.tables, row);
    BankForSound(item.tables, row);
    BankForGrows(item.tables, row);
    var person := PersonFor(bank.tables, row, RowPersonType(target, row));
    PersonForSound(bank.tables, row, RowPersonType(target, row));
    PersonForGrows(bank.tables, row, RowPersonType(target, row));
    var u := person.tables;
    assert u.items == bank.tables.items == item.tables.items;
    assert u.banks == bank.tables.banks;
    SameIds(item.tables, u);
    SameIds(bank.tables, u);
  }

  /** The lookups add only catalogue rows. */
  lemma RowLookupsGrows(target: Target, t: Tables, row: Row)
    requires IdsBelow(t) && Linked(t)
    ensures CatalogGrows(t, RowLookups(target, t, row).tables)
  {
    var item := GsiItemFor(t, row);
    ItemForSound(t, ItemCode(row), ItemName(row));
    ItemForGrows(t, ItemCode(row), ItemName(row));
    var bank := BankFor(item.tables, row);
    BankForSound(item.tables, row);
    BankForGrows(item.tables, row);
    var tipo := RowPersonType(target, row);
    var person := PersonFor(bank.tables, row, tipo);
    PersonForGrows(bank.tables, row, tipo);
    assert RowLookups(target, t, row).tables == person.tables;
    CatalogGrowsTransitive(t, item.tables, bank.tables);
    CatalogGrowsTransitive(t, bank.tables, person.tables);
  }

  lemma CatalogGrowsTransitive(a: Tables, b: Tables, c: Tables)
    requires CatalogGrows(a, b) && CatalogGrows(b, c)
    ensures CatalogGrows(a, c)
  {
  }

  /** Appending a payable with the fresh id whose links exist keeps both
      table invariants. */
  lemma AddPayable(u: Tables, p: ImportedPayable)
    requires IdsBelow(u) && Linked(u) && p.id == u.nextId
    requires p.gsiItemId in ItemIds(u) && p.bankId in BankIds(u) && p.personId in PersonIds(u)
    ensures var w := u.(payables := u.payables + [p], nextId := u.nextId + 1);
      IdsBelow(w) && Linked(w)
  {
    var w := u.(payables := u.payables + [p], nextId := u.nextId + 1);
    SameIds(u, w);
  }

  lemma AddReceivable(u: Tables, r: ImportedReceivable)
    requires IdsBelow(u) && Linked(u) && r.id == u.nextId
    requires r.gsiItemId in ItemIds(u) && r.bankId in BankIds(u) && r.personId in PersonIds(u)
    ensures var w := u.(receivables := u.receivables + [r], nextId := u.nextId + 1);
      IdsBelow(w) && Linked(w)
  {
    var w := u.(receivables := u.receivables + [r], nextId := u.nextId + 1);
    SameIds(u, w);
  }

  /** The insert keeps the table invariants when the ids it links exist. */
  lemma InsertSound(target: Target, r: Refs, row: Row, i: nat, date: CalendarDate)
    requires IdsBelow(r.tables) && Linked(r.tables)
    requires r.itemId in ItemIds(r.tables) && r.bankId in BankIds(r.tables) && r.personId in PersonIds(r.tables)
    ensures var o := Insert(target, r, row, i, date);
      IdsBelow(o.tables) && Linked(o.tables)
  {
    var u := r.tables;
    var o := Insert(target, r, row, i, date);
    if date.InvalidDate? {
      assert o.tables == u;
    } else if target == PayableTarget {
      var p := NewPayable(u.nextId, r.itemId, r.bankId, r.personId, row, date);
      assert o.tables == u.(payables := u.payables + [p], nextId := u.nextId + 1);
      AddPayable(u, p);
    } else {
      var a := NewReceivable(u.nextId, r.itemId, r.bankId, r.personId, row, date);
      assert o.tables == u.(receivables := u.receivables + [a], nextId := u.nextId + 1);
      AddReceivable(u, a);
    }
  }

  /** The insert fails exactly on an Invalid Date, reporting the row's line
      and changing nothing; otherwise it appends one account to the target
      table, takes a fresh id, and changes nothing else. */
  lemma InsertShape(target: Target, r: Refs, row: Row, i: nat, date: CalendarDate)
    ensures var o := Insert(target, r, row, i, date);
      var u := r.tables;
      && (o.error.Some? <==> date.InvalidDate?)
      && (o.error.Some? ==> o.error.value == RowError(i + 2, InvalidDateValue, row) && o.tables == u)
      && (o.error.None? && target == PayableTarget ==>
            o.tables == u.(payables := u.payables + [NewPayable(u.nextId, r.itemId, r.bankId, r.personId, row, date)], nextId := u.nextId + 1))
      && (o.error.None? && target == ReceivableTarget ==>
            o.tables == u.(receivables := u.receivables + [NewReceivable(u.nextId, r.itemId, r.bankId, r.personId, row, date)], nextId := u.nextId + 1))
  {
  }

  /** A row only appends and writes no log; on failure it keeps what its
      lookups created. */
  lemma ImportRowShape(target: Target, t: Tables, row: Row, i: nat, native: string -> Option<Timestamp>, now: Timestamp)
    requires IdsBelow(t) && Linked(t)
    ensures var o := ImportRow(target, t, row, i, native, now);
      && Extends(t, o.tables) && o.tables.logs == t.logs
      && (o.error.Some? ==> o.tables == RowLookups(target, t, row).tables)
  {
    var r := RowLookups(target, t, row);
    var date := RowDate(target, row, native, now);
    RowLookupsGrows(target, t, row);
    InsertShape(target, r, row, i, date);
    assert ImportRow(target, t, row, i, native, now) == Insert(target, r, row, i, date);
  }

  /** A successful row adds one account to the target table and nothing to
      the other one; a failing row adds none. */
  lemma ImportRowAdds(target: Target, t: Tables, row: Row, i: nat, native: string -> Option<Timestamp>, now: Timestamp)
    requires IdsBelow(t) && Linked(t)
    ensures var o := ImportRow(target, t, row, i, native, now);
      && |o.tables.payables| == |t.payables| + (if target == PayableTarget && o.error.None? then 1 else 0)
      && |o.tables.receivables| == |t.receivables| + (if target == ReceivableTarget && o.error.None? then 1 else 0)
      && (target == PayableTarget ==> o.tables.receivables == t.receivables)
      && (target == ReceivableTarget ==> o.tables.payables == t.payables)
  {
    var r := RowLookups(target, t, row);
    var date := RowDate(target, row, native, now);
    RowLookupsGrows(target, t, row);
    InsertShape(target, r, row, i, date);
    assert ImportRow(target, t, row, i, native, now) == Insert(target, r, row, i, date);
  }

  /** A row keeps the table invariants. */
  lemma ImportRowSound(target: Target, t: Tables, row: Row, i: nat, native: string -> Option<Timestamp>, now: Timestamp)
    requires IdsBelow(t) && Linked(t)
    ensures var o := ImportRow(target, t, row, i, native, now);
      IdsBelow(o.tables) && Linked(o.tables)
  {
    var r := RowLookups(target, t, row);
    var date := RowDate(target, row, native, now);
    RowLookupsSound(target, t, row);
    InsertSound(target, r, row, i, date);
    assert ImportRow(target, t, row, i, native, now) == Insert(target, r, row, i, date);
  }


  /** One more turn of the row loop. */
  lemma ImportRowsStep(target: Target, t: Tables, rows: seq<Row>, i: nat, native: string -> Option<Timestamp>, now: Timestamp)
    requires i < |rows|
    ensures var prev := ImportRows(target, t, rows[..i], native, now);
      var o := ImportRow(target, prev.tables, rows[i], i, native, now);
      ImportRows(target, t, rows[..i + 1], native, now)
        == Batch(o.tables, prev.successRows + (if o.error.None? then 1 else 0),
                 prev.errors + (if o.error.Some? then [o.error.value] else []))
  {
    assert rows[..i + 1][..i] == rows[..i];
  }

  /** Whether a row fails does not depend on the tables, and a failure is
      reported as the row's line with the row itself. */
  lemma ImportRowError(target: Target, t: Tables, row: Row, i: nat, native: string -> Option<Timestamp>, now: Timestamp)
    ensures var o := ImportRow(target, t, row, i, native, now);
      && (o.error.Some? <==> RowFails(target, row, native, now))
      && (o.error.Some? ==> o.error.value == RowError(i + 2, InvalidDateValue, row))
  {
  }

  // ---------------------------------------------------------------------------
  // The row loop and the upload
  // ---------------------------------------------------------------------------

  /** The tables, the success count and the error list after the loop over
      some rows. */
  datatype Batch = Batch(tables: Tables, successRows: nat, errors: seq<RowError>)

  /** The row loop: each row in order, its failure appended to the error list. */
  function ImportRows(target: Target, t: Tables, rows: seq<Row>, native: string -> Option<Timestamp>, now: Timestamp): Batch
    decreases |rows|
  {
    if rows == [] then Batch(t, 0, [])
    else
      var prev := ImportRows(target, t, rows[..|rows| - 1], native, now);
      var o := ImportRow(target, prev.tables, rows[|rows| - 1], |rows| - 1, native, now);
      Batch(o.tables, prev.successRows + (if o.error.None? then 1 else 0),
            prev.errors + (if o.error.Some? then [o.error.value] else []))
  }

  /** The error entries of the rows a test fails, in file order. */
  function FailedRows(rows: seq<Row>, fails: Row -> bool): seq<RowError>
    decreases |rows|
  {
    if rows == [] then []
    else
      var n := |rows| - 1;
      FailedRows(rows[..n], fails) + (if fails(rows[n]) then [RowError(n + 2, InvalidDateValue, rows[n])] else [])
  }

  /** The test the loop's inserts apply to a row; the tables play no part. */
  function Failing(target: Target, native: string -> Option<Timestamp>, now: Timestamp): Row -> bool
  {
    row => RowFails(target, row, native, now)
  }

  /** The loop's error list is the list of failing rows. */
  lemma {:induction false} ImportRowsErrors(target: Target, t: Tables, rows: seq<Row>, native: string -> Option<Timestamp>, now: Timestamp)
    ensures ImportRows(target, t, rows, native, now).errors == FailedRows(rows, Failing(target, native, now))
    decreases |rows|
  {
    if rows != [] {
      var init := rows[..|rows| - 1];
      var prev := ImportRows(target, t, init, native, now);
      ImportRowsErrors(target, t, init, native, now);
      ImportRowError(target, prev.tables, rows[|rows| - 1], |rows| - 1, native, now);
    }
  }

  /** Every entry names a failing row by its line (row `i` is line `i + 2`)
      and carries that row's data. */
  lemma {:induction false} FailedRowsSound(rows: seq<Row>, fails: Row -> bool)
    ensures var errors := FailedRows(rows, fails);
      && |errors| <= |rows|
      && (forall k :: 0 <= k < |errors| ==>
            2 <= errors[k].row < |rows| + 2
            && errors[k] == RowError(errors[k].row, InvalidDateValue, rows[errors[k].row - 2])
            && fails(rows[errors[k].row - 2]))
    decreases |rows|
  {
    if rows != [] {
      var n := |rows| - 1;
      var init := rows[..n];
      var prev := FailedRows(init, fails);
      FailedRowsSound(init, fails);
      var errors := prev + if fails(rows[n]) then [RowError(n + 2, InvalidDateValue, rows[n])] else [];
      assert FailedRows(rows, fails) == errors;
      forall k | 0 <= k < |errors|
        ensures 2 <= errors[k].row < |rows| + 2
        ensures errors[k] == RowError(errors[k].row, InvalidDateValue, rows[errors[k].row - 2])
        ensures fails(rows[errors[k].row - 2])
      {
        if k < |prev| {
          assert errors[k] == prev[k];
          assert init[prev[k].row - 2] == rows[prev[k].row - 2];
        }
      }
    }
  }

  /** The entries are in file order, so no row is named twice. */
  lemma {:induction false} FailedRowsOrdered(rows: seq<Row>, fails: Row -> bool)
    ensures var errors := FailedRows(rows, fails);
      forall j, k :: 0 <= j < k < |errors| ==> errors[j].row < errors[k].row
    decreases |rows|
  {
    if rows != [] {
      var n := |rows| - 1;
      var init := rows[..n];
      var prev := FailedRows(init, fails);
      FailedRowsOrdered(init, fails);
      FailedRowsSound(init, fails);
      var errors := prev + if fails(rows[n]) then [RowError(n + 2, InvalidDateValue, rows[n])] else [];
      assert FailedRows(rows, fails) == errors;
      forall j, k | 0 <= j < k < |errors|
        ensures errors[j].row < errors[k].row
      {
        assert errors[j] == prev[j];
        if k < |prev| {
          assert errors[k] == prev[k];
        }
      }
    }
  }

  /** Every failing row is named. */
  lemma {:induction false} FailedRowsComplete(rows: seq<Row>, fails: Row -> bool)
    ensures var errors := FailedRows(rows, fails);
      forall i :: 0 <= i < |rows| && fails(rows[i]) ==> exists k :: 0 <= k < |errors| && errors[k].row == i + 2
    decreases |rows|
  {
    if rows != [] {
      var n := |rows| - 1;
      var init := rows[..n];
      var prev := FailedRows(init, fails);
      FailedRowsComplete(init, fails);
      var errors := prev + if fails(rows[n]) then [RowError(n + 2, InvalidDateValue, rows[n])] else [];
      assert FailedRows(rows, fails) == errors;
      forall i | 0 <= i < |rows| && fails(rows[i])
        ensures exists k :: 0 <= k < |errors| && errors[k].row == i + 2
      {
        if i == n {
          assert errors[|errors| - 1].row == i + 2;
        } else {
          assert init[i] == rows[i];
          var k :| 0 <= k < |prev| && prev[k].row == i + 2;
          assert errors[k] == prev[k];
        }
      }
    }
  }

  /** The loop keeps the table invariants. */
  lemma {:induction false} ImportRowsSound(target: Target, t: Tables, rows: seq<Row>, native: string -> Option<Timestamp>, now: Timestamp)
    requires IdsBelow(t) && Linked(t)
    ensures var b := ImportRows(target, t, rows, native, now);
      IdsBelow(b.tables) && Linked(b.tables)
    decreases |rows|
  {
    if rows != [] {
      var init := rows[..|rows| - 1];
      var prev := ImportRows(target, t, init, native, now);
      ImportRowsSound(target, t, init, native, now);
      ImportRowSound(target, prev.tables, rows[|rows| - 1], |rows| - 1, native, now);
    }
  }

  /** Every row is counted once, as a success or as an error. */
  lemma {:induction false} ImportRowsTally(target: Target, t: Tables, rows: seq<Row>, native: string -> Option<Timestamp>, now: Timestamp)
    ensures var b := ImportRows(target, t, rows, native, now);
      b.successRows + |b.errors| == |rows|
    decreases |rows|
  {
    if rows != [] {
      ImportRowsTally(target, t, rows[..|rows| - 1], native, now);
    }
  }

  /** The loop only appends, writes no log, and adds one account to the
      target table per successful row. */
  lemma {:induction false} ImportRowsCounts(target: Target, t: Tables, rows: seq<Row>, native: string -> Option<Timestamp>, now: Timestamp)
    requires IdsBelow(t) && Linked(t)
    ensures var b := ImportRows(target, t, rows, native, now);
      && Extends(t, b.tables) && b.tables.logs == t.logs
      && (target == PayableTarget ==>
            |b.tables.payables| == |t.payables| + b.successRows && b.tables.receivables == t.receivables)
      && (target == ReceivableTarget ==>
            |b.tables.receivables| == |t.receivables| + b.successRows && b.tables.payables == t.payables)
    decreases |rows|
  {
    if rows != [] {
      var n := |rows| - 1;
      var prev := ImportRows(target, t, rows[..n], native, now);
      ImportRowsCounts(target, t, rows[..n], native, now);
      ImportRowsSound(target, t, rows[..n], native, now);
      var o := ImportRow(target, prev.tables, rows[n], n, native, now);
      ImportRowShape(target, prev.tables, rows[n], n, native, now);
      ImportRowAdds(target, prev.tables, rows[n], n, native, now);
      var b := ImportRows(target, t, rows, native, now);
      assert b.tables == o.tables;
      assert b.successRows == prev.successRows + (if o.error.None? then 1 else 0);
    }
  }



  /** The tables after an accepted upload, and the answer the service gives. */
  datatype Uploaded = Uploaded(tables: Tables, result: UploadResult)

  /** The answer and the upload log once the loop is over. */
  function Finish(file: UploadedFile, rows: seq<Row>, b: Batch): Uploaded
  {
    var result := UploadResult(|rows|, b.successRows, |b.errors|, b.errors);
    var log := UploadLog(file.originalname, file.mimetype, result.totalRows, result.successRows, result.errorRows, result.errors);
    Uploaded(b.tables.(logs := b.tables.logs + [log]), result)
  }

  /** `uploadAccountsPayable` / `uploadAccountsReceivable` on the rows the
      file parses into: an unsupported format is refused before anything is
      written; otherwise the row loop runs and one upload log is appended. */
  function Upload(target: Target, t: Tables, file: UploadedFile, rows: seq<Row>,
                  native: string -> Option<Timestamp>, now: Timestamp): Result<Uploaded, ServiceError>
  {
    match DetectFormat(file.mimetype, file.originalname)
    case Err(e) => Err(e)
    case Ok(_) => Ok(Finish(file, rows, ImportRows(target, t, rows, native, now)))
  }

  /** An upload is refused exactly for an unsupported format, with a bad
      request. */
  lemma UploadRefused(target: Target, t: Tables, file: UploadedFile, rows: seq<Row>,
                      native: string -> Option<Timestamp>, now: Timestamp)
    ensures var u := Upload(target, t, file, rows, native, now);
      && (u.Err? <==> DetectFormat(file.mimetype, file.originalname).Err?)
      && (u.Err? ==> u.error == UnsupportedFormat)
  {
  }

  /** The answer of an accepted upload: the counts add up, the error list is
      the list of failing rows, and the log appended records the file and the
      answer. */
  lemma UploadResultSpec(target: Target, t: Tables, file: UploadedFile, rows: seq<Row>,
                         native: string -> Option<Timestamp>, now: Timestamp)
    requires IdsBelow(t) && Linked(t)
    ensures var u := Upload(target, t, file, rows, native, now);
      u.Ok? ==>
        var r := u.value.result;
        && r.totalRows == |rows| && r.successRows + r.errorRows == r.totalRows
        && r.errorRows == |r.errors| && r.errors == FailedRows(rows, Failing(target, native, now))
        && u.value.tables.logs == t.logs + [UploadLog(file.originalname, file.mimetype, r.totalRows, r.successRows, r.errorRows, r.errors)]
  {
    if DetectFormat(file.mimetype, file.originalname).Ok? {
      ImportRowsErrors(target, t, rows, native, now);
      ImportRowsTally(target, t, rows, native, now);
      ImportRowsCounts(target, t, rows, native, now);
      var b := ImportRows(target, t, rows, native, now);
      assert Upload(target, t, file, rows, native, now) == Ok(Finish(file, rows, b));
    }
  }

  /** An accepted upload keeps the table invariants and creates one account
      per successful row in the target table, none in the other. */
  lemma UploadSound(target: Target, t: Tables, file: UploadedFile, rows: seq<Row>,
                    native: string -> Option<Timestamp>, now: Timestamp)
    requires IdsBelow(t) && Linked(t)
    ensures var u := Upload(target, t, file, rows, native, now);
      u.Ok? ==>
        var r := u.value.result;
        var w := u.value.tables;
        && IdsBelow(w) && Linked(w)
        && (target == PayableTarget ==> |w.payables| == |t.payables| + r.successRows && w.receivables == t.receivables)
        && (target == ReceivableTarget ==> |w.receivables| == |t.receivables| + r.successRows && w.payables == t.payables)
  {
    if DetectFormat(file.mimetype, file.originalname).Ok? {
      ImportRowsSound(target, t, rows, native, now);
      ImportRowsCounts(target, t, rows, native, now);
      var b := ImportRows(target, t, rows, native, now);
      assert Upload(target, t, file, rows, native, now) == Ok(Finish(file, rows, b));
      FinishSound(file, rows, b);
    }
  }

  /** Appending the log keeps the table invariants and no other table changes. */
  lemma FinishSound(file: UploadedFile, rows: seq<Row>, b: Batch)
    requires IdsBelow(b.tables) && Linked(b.tables)
    ensures var w := Finish(file, rows, b).tables;
      && IdsBelow(w) && Linked(w) && w.payables == b.tables.payables && w.receivables == b.tables.receivables
  {
    var w := Finish(file, rows, b).tables;
    assert w == b.tables.(logs := w.logs);
    SameIds(b.tables, w);
  }

  // ---------------------------------------------------------------------------
  // The service over the database
  // ---------------------------------------------------------------------------

  /** The database the upload service writes, updated in place. */
  class ImportDatabase {
    var db: Tables

    constructor (initial: Tables)
      ensures db == initial
    {
      db := initial;
    }

    /** `findOrCreateGSIItem`: the item lookup, and on a miss the group and
        subgroup lookups followed by the item's creation. */
    method FindOrCreateGsiItem(row: Row) returns (id: Id)
      modifies this
      ensures db == GsiItemFor(old(db), row).tables
      ensures id == GsiItemFor(old(db), row).id
    {
      var codigo := ItemCode(row);
      var nome := ItemName(row);
      var found := FindFirst(db.items, ItemCoded(codigo));
      if found.Some? {
        return db.items[found.value].id;
      }
      ghost var t0 := db;
      var groupId := FindOrCreateGroup(GroupCode(codigo));
      var subgroupId := FindOrCreateSubgroup(SubgroupCode(codigo), groupId);
      id := db.nextId;
      db := db.(items := db.items + [GsiItem(db.nextId, subgroupId, codigo, nome, AutoDescription)], nextId := db.nextId + 1);
      assert Found(db, id) == CreateItem(t0, codigo, nome);
    }

    /** The group step of `findOrCreateGSIItem`. */
    method FindOrCreateGroup(codigo: string) returns (id: Id)
      modifies this
      ensures db == GroupFor(old(db), codigo).tables
      ensures id == GroupFor(old(db), codigo).id
    {
      var found := FindFirst(db.groups, GroupCoded(codigo));
      if found.Some? {
        return db.groups[found.value].id;
      }
      id := db.nextId;
      db := db.(groups := db.groups + [GsiGroup(db.nextId, codigo, "Grupo " + codigo, AutoDescription)], nextId := db.nextId + 1);
    }

    /** The subgroup step of `findOrCreateGSIItem`. */
    method FindOrCreateSubgroup(codigo: string, groupId: Id) returns (id: Id)
      modifies this
      ensures db == SubgroupFor(old(db), codigo, groupId).tables
      ensures id == SubgroupFor(old(db), codigo, groupId).id
    {
      var found := FindFirst(db.subgroups, SubgroupCoded(codigo, groupId));
      if found.Some? {
        return db.subgroups[found.value].id;
      }
      id := db.nextId;
      db := db.(subgroups := db.subgroups + [GsiSubgroup(db.nextId, groupId, codigo, "Subgrupo " + codigo, AutoDescription)], nextId := db.nextId + 1);
    }

    /** `findOrCreateBank`. */
    method FindOrCreateBank(row: Row) returns (id: Id)
      modifies this
      ensures db == BankFor(old(db), row).tables
      ensures id == BankFor(old(db), row).id
    {
      var codigo := FirstFilled(row, BankCodeColumns, "001");
      var found := FindFirst(db.banks, BankCoded(codigo));
      if found.Some? {
        return db.banks[found.value].id;
      }
      id := db.nextId;
      var bank := Bank(db.nextId, FirstFilled(row, BankNameColumns, "Banco Padrão"), codigo,
                       FirstFilled(row, ["agencia"], "0001"), FirstFilled(row, ["conta"], "00000000"),
                       FirstFilled(row, AccountTypeColumns, "CORRENTE"));
      db := db.(banks := db.banks + [bank], nextId := db.nextId + 1);
    }

    /** `findOrCreatePerson`. */
    method FindOrCreatePerson(row: Row, tipo: PersonType) returns (id: Id)
      modifies this
      ensures db == PersonFor(old(db), row, tipo).tables
      ensures id == PersonFor(old(db), row, tipo).id
    {
      var nome := FirstFilled(row, PersonNameColumns, "Pessoa Padrão");
      var found := FindFirst(db.persons, PersonNamed(nome, tipo));
      if found.Some? {
        return db.persons[found.value].id;
      }
      id := db.nextId;
      db := db.(persons := db.persons + [Person(db.nextId, tipo, nome, OptionalCell(row, DocumentColumns))], nextId := db.nextId + 1);
    }
  
    /** The body of `uploadAccountsPayable`'s loop for row `i`: the three
        lookups, then the insert, whose failure is answered as the error
        entry instead of being thrown. */
    method ImportPayableRow(row: Row, i: nat, native: string -> Option<Timestamp>, now: Timestamp) returns (error: Option<RowError>)
      modifies this
      ensures db == ImportRow(PayableTarget, old(db), row, i, native, now).tables
      ensures error == ImportRow(PayableTarget, old(db), row, i, native, now).error
    {
      ghost var before := db;
      var gsiItemId := FindOrCreateGsiItem(row);
      var bankId := FindOrCreateBank(row);
      var personId := FindOrCreatePerson(row, PersonType.Fornecedor);
      ghost var r := Refs(db, gsiItemId, bankId, personId);
      assert r == RowLookups(PayableTarget, before, row);
      var due := ParseDate(FirstFilled(row, DueDateColumns, ""), native, now);
      assert due == RowDate(PayableTarget, row, native, now);
      assert ImportRow(PayableTarget, before, row, i, native, now) == Insert(PayableTarget, r, row, i, due);
      InsertShape(PayableTarget, r, row, i, due);
      if due.InvalidDate? {
        return Some(RowError(i + 2, InvalidDateValue, row));
      }
      db := db.(payables := db.payables + [NewPayable(db.nextId, gsiItemId, bankId, personId, row, due)], nextId := db.nextId + 1);
      error := None;
    }

    /** The body of `uploadAccountsReceivable`'s loop for row `i`; the person
        is looked up as CONVENIO or PACIENTE according to the row's origin. */
    method ImportReceivableRow(row: Row, i: nat, native: string -> Option<Timestamp>, now: Timestamp) returns (error: Option<RowError>)
      modifies this
      ensures db == ImportRow(ReceivableTarget, old(db), row, i, native, now).tables
      ensures error == ImportRow(ReceivableTarget, old(db), row, i, native, now).error
    {
      ghost var before := db;
      var gsiItemId := FindOrCreateGsiItem(row);
      var bankId := FindOrCreateBank(row);
      var origem := RowOrigin(row);
      var personType := if origem == ReceivableOrigin.Convenio then PersonType.Convenio else PersonType.Paciente;
      assert personType == RowPersonType(ReceivableTarget, row);
      var personId := FindOrCreatePerson(row, personType);
      ghost var r := Refs(db, gsiItemId, bankId, personId);
      assert r == RowLookups(ReceivableTarget, before, row);
      var expected := ParseDate(FirstFilled(row, ExpectedDateColumns, ""), native, now);
      assert expected == RowDate(ReceivableTarget, row, native, now);
      assert ImportRow(ReceivableTarget, before, row, i, native, now) == Insert(ReceivableTarget, r, row, i, expected);
      InsertShape(ReceivableTarget, r, row, i, expected);
      if expected.InvalidDate? {
        return Some(RowError(i + 2, InvalidDateValue, row));
      }
      db := db.(receivables := db.receivables + [NewReceivable(db.nextId, gsiItemId, bankId, personId, row, expected)], nextId := db.nextId + 1);
      error := None;
    }

    /** The row loop of `uploadAccountsPayable`: every row in order, a
        failing row counted and listed, a successful one counted. */
    method ImportPayableRows(rows: seq<Row>, native: string -> Option<Timestamp>, now: Timestamp)
      returns (successRows: nat, errors: seq<RowError>)
      modifies this
      ensures Batch(db, successRows, errors) == ImportRows(PayableTarget, old(db), rows, native, now)
    {
      ghost var t0 := db;
      successRows, errors := 0, [];
      for i := 0 to |rows|
        invariant Batch(db, successRows, errors) == ImportRows(PayableTarget, t0, rows[..i], native, now)
      {
        ImportRowsStep(PayableTarget, t0, rows, i, native, now);
        var error := ImportPayableRow(rows[i], i, native, now);
        if error.Some? {
          errors := errors + [error.value];
        } else {
          successRows := successRows + 1;
        }
      }
      assert rows[..|rows|] == rows;
    }

    /** The row loop of `uploadAccountsReceivable`. */
    method ImportReceivableRows(rows: seq<Row>, native: string -> Option<Timestamp>, now: Timestamp)
      returns (successRows: nat, errors: seq<RowError>)
      modifies this
      ensures Batch(db, successRows, errors) == ImportRows(ReceivableTarget, old(db), rows, native, now)
    {
      ghost var t0 := db;
      successRows, errors := 0, [];
      for i := 0 to |rows|
        invariant Batch(db, successRows, errors) == ImportRows(ReceivableTarget, t0, rows[..i], native, now)
      {
        ImportRowsStep(ReceivableTarget, t0, rows, i, native, now);
        var error := ImportReceivableRow(rows[i], i, native, now);
        if error.Some? {
          errors := errors + [error.value];
        } else {
          successRows := successRows + 1;
        }
      }
      assert rows[..|rows|] == rows;
    }

    /** `uploadAccountsPayable`: refuses an unsupported file and writes
        nothing; otherwise runs the row loop, then appends the upload log and
        answers the counts and the error list. */
    method UploadAccountsPayable(file: UploadedFile, rows: seq<Row>, native: string -> Option<Timestamp>, now: Timestamp)
      returns (res: Result<UploadResult, ServiceError>)
      modifies this
      ensures var u := Upload(PayableTarget, old(db), file, rows, native, now);
        && (u.Err? ==> res == Err(u.error) && db == old(db))
        && (u.Ok? ==> res == Ok(u.value.result) && db == u.value.tables)
    {
      var format := DetectFormat(file.mimetype, file.originalname);
      if format.Err? {
        return Err(format.error);
      }
      var successRows, errors := ImportPayableRows(rows, native, now);
      var result := UploadResult(|rows|, successRows, |errors|, errors);
      db := db.(logs := db.logs + [UploadLog(file.originalname, file.mimetype, result.totalRows, result.successRows, result.errorRows, result.errors)]);
      res := Ok(result);
    }

    /** `uploadAccountsReceivable`: as the payable upload, into the
        receivable table. */
    method UploadAccountsReceivable(file: UploadedFile, rows: seq<Row>, native: string -> Option<Timestamp>, now: Timestamp)
      returns (res: Result<UploadResult, ServiceError>)
      modifies this
      ensures var u := Upload(ReceivableTarget, old(db), file, rows, native, now);
        && (u.Err? ==> res == Err(u.error) && db == old(db))
        && (u.Ok? ==> res == Ok(u.value.result) && db == u.value.tables)
    {
      var format := DetectFormat(file.mimetype, file.originalname);
      if format.Err? {
        return Err(format.error);
      }
      var successRows, errors := ImportReceivableRows(rows, native, now);
      var result := UploadResult(|rows|, successRows, |errors|, errors);
      db := db.(logs := db.logs + [UploadLog(file.originalname, file.mimetype, result.totalRows, result.successRows, result.errorRows, result.errors)]);
      res := Ok(result);
    }
  }
}
