/** What a service's ops do to a node: rows, kernel routes and the probe
    client's addresses, as writes over a map. */
module Devices {
  import opened Text
  import opened ServiceObjects

  datatype Cell =
    | RowCell(row: Row)
    | MainRoute(dst: string)
    | VrfRoute(vrf: string, prefix: string)
    | ClientAddr(attachment: string, addr: string)
    | ClientDefault(attachment: string)

  datatype Entry =
    | Fields(fields: map<string, string>)
    | DecapInto(vrf: string)
    | EncapTo(segment: string)
    | Via(via: string, metric: nat)
    | Present
    | Gateway(gateway: string)

  type Device = map<Cell, Entry>

  /** One write. */
  datatype Atom =
    | Put(cell: Cell, entry: Entry)
    | Drop(cell: Cell)
    | DropVrfs
    | DropClient(attachment: string)

  predicate Drops(a: Atom, c: Cell) {
    match a
    case Put(_, _) => false
    case Drop(cell) => c == cell
    case DropVrfs => c.RowCell? && c.row.VrfRow?
    case DropClient(att) => (c.ClientAddr? || c.ClientDefault?) && c.attachment == att
  }

  function Do(d: Device, a: Atom): Device {
    if a.Put? then d[a.cell := a.entry] else map c | c in d && !Drops(a, c) :: d[c]
  }

  function DoAll(d: Device, atoms: seq<Atom>): Device
    decreases |atoms|
  {
    if atoms == [] then d else DoAll(Do(d, atoms[0]), atoms[1..])
  }

  // ---- ops as writes -------------------------------------------------------------

  function PatchAtom(s: PatchStep): Atom {
    match s
    case AddRow(row, fields) => Put(RowCell(row), Fields(fields))
    case RemoveRow(row) => Drop(RowCell(row))
    case RemoveVrfTable => DropVrfs
  }

  /** Flushing a kernel port drops addresses that the managers derive from rows;
      they are no cell of their own. */
  function KernelAtoms(c: KernelCmd): seq<Atom> {
    match c
    case ReplaceDecap(sid, vrf) => [Put(MainRoute(sid), DecapInto(vrf))]
    case ReplaceEncap(vrf, prefix, segment) => [Put(VrfRoute(vrf, prefix), EncapTo(segment))]
    case ReplaceLocatorPin(locator, via) => [Put(MainRoute(locator), Via(via, 5))]
    case ReplacePreferredPin(dst, via) => [Put(MainRoute(dst), Via(via, 20))]
    case DeleteRoute(dst) => [Drop(MainRoute(dst))]
    case DeleteVrfRoute(vrf, prefix) => [Drop(VrfRoute(vrf, prefix))]
    case FlushPort(_) => []
  }

  function ClientAtom(att: string, c: ClientCmd): Atom {
    match c
    case FlushClient => DropClient(att)
    case AddClientAddress(addr) => Put(ClientAddr(att, addr), Present)
    case DefaultVia(gateway) => Put(ClientDefault(att), Gateway(gateway))
  }

  function PatchAtoms(steps: seq<PatchStep>): seq<Atom> {
    if steps == [] then [] else [PatchAtom(steps[0])] + PatchAtoms(steps[1..])
  }

  function ShellAtoms(cmds: seq<KernelCmd>): seq<Atom> {
    if cmds == [] then [] else KernelAtoms(cmds[0]) + ShellAtoms(cmds[1..])
  }

  function ClientAtoms(att: string, cmds: seq<ClientCmd>): seq<Atom> {
    if cmds == [] then [] else [ClientAtom(att, cmds[0])] + ClientAtoms(att, cmds[1..])
  }

  function OpAtoms(op: Op): seq<Atom> {
    match op
    case Gcu(patch) => PatchAtoms(patch)
    case Shell(cmds) => ShellAtoms(cmds)
    case OnClient(att, cmds) => ClientAtoms(att, cmds)
  }

  function Atoms(ops: seq<Op>): seq<Atom> {
    if ops == [] then [] else OpAtoms(ops[0]) + Atoms(ops[1..])
  }

  // ---- what a list of writes leaves ----------------------------------------------

  function Look(d: Device, c: Cell): Option<Entry> {
    if c in d then Some(d[c]) else None
  }

  /** The verdict on a cell: untouched, or what the last write to it leaves. */
  datatype Verdict = Untouched | Left(entry: Option<Entry>)

  function VerdictOf(a: Atom, c: Cell): Verdict {
    if a.Put? && a.cell == c then Left(Some(a.entry)) else if Drops(a, c) then Left(None) else Untouched
  }

  function Verdicts(atoms: seq<Atom>, c: Cell): Verdict {
    if atoms == [] then Untouched
    else if Verdicts(atoms[1..], c) != Untouched then Verdicts(atoms[1..], c)
    else VerdictOf(atoms[0], c)
  }

  /** Last writer wins: what a list of writes leaves in a cell it touches does not
      depend on the device, and it changes no other cell. */
  lemma {:induction false} LastWriterWins(d: Device, atoms: seq<Atom>, c: Cell)
    ensures Look(DoAll(d, atoms), c) == match Verdicts(atoms, c) case Untouched => Look(d, c) case Left(e) => e
    decreases |atoms|
  {
    if atoms != [] { LastWriterWins(Do(d, atoms[0]), atoms[1..], c); }
  }

  lemma {:induction false} VerdictsConcat(a: seq<Atom>, b: seq<Atom>, c: Cell)
    ensures Verdicts(a + b, c) == if Verdicts(b, c) != Untouched then Verdicts(b, c) else Verdicts(a, c)
  {
    if a == [] {
      assert a + b == b;
    } else {
      assert (a + b)[1..] == a[1..] + b;
      VerdictsConcat(a[1..], b, c);
    }
  }

  lemma {:induction false} DoAllConcat(d: Device, a: seq<Atom>, b: seq<Atom>)
    ensures DoAll(d, a + b) == DoAll(DoAll(d, a), b)
    decreases |a|
  {
    if a == [] {
      assert a + b == b;
    } else {
      assert (a + b)[1..] == a[1..] + b;
      DoAllConcat(Do(d, a[0]), a[1..], b);
    }
  }

  lemma {:induction false} AtomsConcat(a: seq<Op>, b: seq<Op>)
    ensures Atoms(a + b) == Atoms(a) + Atoms(b)
  {
    if a == [] {
      assert a + b == b;
    } else {
      assert (a + b)[1..] == a[1..] + b;
      AtomsConcat(a[1..], b);
    }
  }

  lemma AtomsNext(ops: seq<Op>, i: nat)
    requires i < |ops|
    ensures Atoms(ops[..i + 1]) == Atoms(ops[..i]) + OpAtoms(ops[i])
  {
    assert ops[..i + 1] == ops[..i] + [ops[i]];
    AtomsConcat(ops[..i], [ops[i]]);
    assert Atoms([ops[i]]) == OpAtoms(ops[i]) + [];
  }

  /** A cell one of the ops touches is touched by the whole. */
  lemma {:induction false} OpTouches(ops: seq<Op>, op: Op, c: Cell)
    requires op in ops && Verdicts(OpAtoms(op), c) != Untouched
    ensures Verdicts(Atoms(ops), c) != Untouched
  {
    VerdictsConcat(OpAtoms(ops[0]), Atoms(ops[1..]), c);
    if op != ops[0] { OpTouches(ops[1..], op, c); }
  }

  /** A cell the whole touches is touched by one of the ops. */
  lemma {:induction false} TouchedByOne(ops: seq<Op>, c: Cell) returns (op: Op)
    requires Verdicts(Atoms(ops), c) != Untouched
    ensures op in ops && Verdicts(OpAtoms(op), c) != Untouched
  {
    VerdictsConcat(OpAtoms(ops[0]), Atoms(ops[1..]), c);
    if Verdicts(Atoms(ops[1..]), c) != Untouched {
      op := TouchedByOne(ops[1..], c);
    } else {
      op := ops[0];
    }
  }

  // ---- node plans -----------------------------------------------------------------

  /** The ops leave an entry in the cell. */
  predicate Makes(ops: seq<Op>, c: Cell) {
    Verdicts(Atoms(ops), c).Left? && Verdicts(Atoms(ops), c).entry.Some?
  }

  function EntryLeft(ops: seq<Op>, c: Cell): Option<Entry> {
    match Verdicts(Atoms(ops), c) case Untouched => None case Left(e) => e
  }

  /** The rollback deletes every entry the ops create, and creates none. */
  ghost predicate Covered(np: NodePlan) {
    forall c :: && (Makes(np.ops, c) ==> Verdicts(Atoms(np.rollback), c) == Left(None))
                && !Makes(np.rollback, c)
  }

  /** A node that was applied and rolled back holds none of the plan's entries,
      and every cell the two do not touch is as it was. */
  lemma RollbackUndoes(d: Device, np: NodePlan, c: Cell)
    requires Covered(np)
    ensures var d' := DoAll(DoAll(d, Atoms(np.ops)), Atoms(np.rollback));
      && (Makes(np.ops, c) ==> c !in d')
      && (Verdicts(Atoms(np.ops), c) == Untouched && Verdicts(Atoms(np.rollback), c) == Untouched ==> Look(d', c) == Look(d, c))
  {
    LastWriterWins(d, Atoms(np.ops), c);
    LastWriterWins(DoAll(d, Atoms(np.ops)), Atoms(np.rollback), c);
  }
}
