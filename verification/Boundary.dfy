/** Whether a wasm module may run as an app, judged from what it declares at its boundary: every
    reason against it is listed, once. */
module Boundary {
  import opened Basics

  const NAMESPACE := "citadel_app_abi_1"
  const MEMORY := "memory"
  const REPLY_LEN := "reply_len"
  const REPLY_READ := "reply_read"
  const EXPORT_FRAME := "app_frame"

  datatype ValKind = I32 | I64 | F32 | F64 | V128 | Ref

  datatype FuncSig = FuncSig(params: seq<ValKind>, results: seq<ValKind>)

  datatype MemoryDecl = MemoryDecl(initialPages: u64, maximumPages: Option<u64>, shared: bool, memory64: bool)

  datatype ImportKind = FuncImport(sig: FuncSig) | MemoryImport(decl: MemoryDecl) | OtherImport

  datatype Import = Import(from: string, name: string, kind: ImportKind)

  datatype ExportKind = FuncExport(sig: FuncSig) | OtherExport

  datatype Inspection = Inspection(
    imports: seq<Import>,
    exports: seq<(string, ExportKind)>,
    definedMemories: seq<MemoryDecl>,
    hasStart: bool,
    usesThreads: bool)

  datatype Group =
    | Canvas | Ui | Events | Navigate | Nodes | Md | Files | Chat | Members | Storage | Net | Ihttp
    | Clipboard | Notify | Documents | Log | Topic

  const INTRINSIC := [Canvas, Ui, Events, Navigate, Log]

  /** `declared` are the groups of the capabilities the manifest declares. */
  datatype Policy = Policy(declared: seq<Group>, maxMemoryPages: u32)

  datatype Rejection =
    | Threads
    | ForeignImport(from: string, name: string)
    | UnknownImport(name: string)
    | WrongImportKind(name: string)
    | WrongImportSignature(name: string)
    | UndeclaredGroup(group: Group)
    | MemoryNotImported
    | MemoryDefined
    | SharedMemory
    | Memory64
    | MemoryInitialTooLarge(initialPages: u64, maxPages: u32)
    | MissingExport(name: string)
    | WrongExportSignature(name: string)
    | StartFunction

  function GroupNamed(name: string): Option<Group> {
    if name == "canvas" then Some(Canvas)
    else if name == "ui" then Some(Ui)
    else if name == "events" then Some(Events)
    else if name == "navigate" then Some(Navigate)
    else if name == "nodes" then Some(Nodes)
    else if name == "md" then Some(Md)
    else if name == "files" then Some(Files)
    else if name == "chat" then Some(Chat)
    else if name == "members" then Some(Members)
    else if name == "storage" then Some(Storage)
    else if name == "net" then Some(Net)
    else if name == "ihttp" then Some(Ihttp)
    else if name == "clipboard" then Some(Clipboard)
    else if name == "notify" then Some(Notify)
    else if name == "documents" then Some(Documents)
    else if name == "log" then Some(Log)
    else if name == "topic" then Some(Topic)
    else None
  }

  const GROUP_SIG := FuncSig([I32, I32, I32], [I32])
  const REPLY_LEN_SIG := FuncSig([I32], [I32])
  const FRAME_SIG := FuncSig([I32], [])

  const REQUIRED_EXPORTS: seq<(string, FuncSig)> := [
    ("app_alloc", FuncSig([I32], [I32])),
    ("app_free", FuncSig([I32, I32], [])),
    ("app_init", FuncSig([I32, I32], [I32])),
    ("app_event", FuncSig([I32, I32], [])),
    ("app_close", FuncSig([I32], [I32]))]

  predicate Opened(policy: Policy, group: Group) {
    group in policy.declared || group in INTRINSIC
  }

  // ---------------------------------------------------------------- reasons, one import or export at a time

  function PushOnce(out: seq<Rejection>, r: Rejection): seq<Rejection> {
    if r in out then out else out + [r]
  }

  function FuncReason(kind: ImportKind, want: FuncSig, name: string): seq<Rejection> {
    if kind.FuncImport? && kind.sig == want then []
    else if kind.FuncImport? then [WrongImportSignature(name)]
    else [WrongImportKind(name)]
  }

  function MemoryReasons(m: MemoryDecl, policy: Policy): seq<Rejection> {
    (if m.shared then [SharedMemory] else [])
    + (if m.memory64 then [Memory64] else [])
    + (if m.initialPages > policy.maxMemoryPages then [MemoryInitialTooLarge(m.initialPages, policy.maxMemoryPages)]
       else [])
  }

  function ImportReasons(imp: Import, policy: Policy): seq<Rejection> {
    if imp.from != NAMESPACE then [ForeignImport(imp.from, imp.name)]
    else if imp.name == MEMORY then
      if imp.kind.MemoryImport? then MemoryReasons(imp.kind.decl, policy) else [WrongImportKind(imp.name)]
    else if imp.name == REPLY_LEN then FuncReason(imp.kind, REPLY_LEN_SIG, imp.name)
    else if imp.name == REPLY_READ then FuncReason(imp.kind, GROUP_SIG, imp.name)
    else if GroupNamed(imp.name).None? then [UnknownImport(imp.name)]
    else
      var group := GroupNamed(imp.name).value;
      FuncReason(imp.kind, GROUP_SIG, imp.name) + (if Opened(policy, group) then [] else [UndeclaredGroup(group)])
  }

  function PushAll(out: seq<Rejection>, rs: seq<Rejection>): seq<Rejection>
    decreases |rs|
  {
    if rs == [] then out else PushAll(PushOnce(out, rs[0]), rs[1..])
  }

  function ImportsOut(imports: seq<Import>, policy: Policy, out: seq<Rejection>): seq<Rejection>
    decreases |imports|
  {
    if imports == [] then out else ImportsOut(imports[1..], policy, PushAll(out, ImportReasons(imports[0], policy)))
  }

  /** The first export of that name. */
  function Exported(exports: seq<(string, ExportKind)>, name: string): Option<ExportKind> {
    if exports == [] then None
    else if exports[0].0 == name then Some(exports[0].1)
    else Exported(exports[1..], name)
  }

  function RequiredReason(insp: Inspection, name: string, want: FuncSig): seq<Rejection> {
    match Exported(insp.exports, name)
    case None => [MissingExport(name)]
    case Some(kind) => if kind == FuncExport(want) then [] else [WrongExportSignature(name)]
  }

  function FrameReason(insp: Inspection): seq<Rejection> {
    match Exported(insp.exports, EXPORT_FRAME)
    case None => []
    case Some(kind) => if kind == FuncExport(FRAME_SIG) then [] else [WrongExportSignature(EXPORT_FRAME)]
  }

  function RequiredReasons(insp: Inspection, n: nat): seq<Rejection>
    requires n <= |REQUIRED_EXPORTS|
  {
    if n == 0 then []
    else RequiredReasons(insp, n - 1) + RequiredReason(insp, REQUIRED_EXPORTS[n - 1].0, REQUIRED_EXPORTS[n - 1].1)
  }

  function ImportedMemory(imports: seq<Import>): Option<MemoryDecl> {
    if imports == [] then None
    else if imports[0].kind.MemoryImport? && imports[0].from == NAMESPACE then Some(imports[0].kind.decl)
    else ImportedMemory(imports[1..])
  }

  function VerdictOf(insp: Inspection, policy: Policy): seq<Rejection> {
    ImportsOut(insp.imports, policy, if insp.usesThreads then [Threads] else [])
    + (if ImportedMemory(insp.imports).None? then [MemoryNotImported] else [])
    + (if insp.definedMemories != [] then [MemoryDefined] else [])
    + (if insp.hasStart then [StartFunction] else [])
    + RequiredReasons(insp, |REQUIRED_EXPORTS|) + FrameReason(insp)
  }

  // ---------------------------------------------------------------- the source's own form

  /** The reasons listed so far. */
  class Report {
    var out: seq<Rejection>

    constructor ()
      ensures out == []
    {
      out := [];
    }

    method Push(r: Rejection)
      modifies this
      ensures out == old(out) + [r]
    {
      out := out + [r];
    }

    method PushNew(r: Rejection)
      modifies this
      ensures out == PushAll(old(out), [r])
    {
      if r !in out {
        out := out + [r];
      }
    }

    method ExpectFunc(kind: ImportKind, want: FuncSig, name: string)
      modifies this
      ensures out == PushAll(old(out), FuncReason(kind, want, name))
    {
      if kind.FuncImport? && kind.sig == want {
        return;
      }
      if kind.FuncImport? {
        PushNew(WrongImportSignature(name));
      } else {
        PushNew(WrongImportKind(name));
      }
    }

    method JudgeMemory(m: MemoryDecl, policy: Policy)
      modifies this
      ensures out == PushAll(old(out), MemoryReasons(m, policy))
    {
      hide PushOnce, PushAll;
      ghost var was := out;
      NonePushed(was);
      if m.shared {
        PushNew(SharedMemory);
      }
      PushedBoth(was, if m.shared then [SharedMemory] else [], if m.memory64 then [Memory64] else []);
      NonePushed(out);
      if m.memory64 {
        PushNew(Memory64);
      }
      NonePushed(out);
      PushedBoth(was, (if m.shared then [SharedMemory] else []) + (if m.memory64 then [Memory64] else []),
                 if m.initialPages > policy.maxMemoryPages
                 then [MemoryInitialTooLarge(m.initialPages, policy.maxMemoryPages)] else []);
      if m.initialPages > policy.maxMemoryPages {
        PushNew(MemoryInitialTooLarge(m.initialPages, policy.maxMemoryPages));
      }
    }

    method JudgeImport(imp: Import, policy: Policy)
      modifies this
      ensures out == PushAll(old(out), ImportReasons(imp, policy))
    {
      hide PushOnce, PushAll, MemoryReasons, FuncReason, GroupNamed;
      if imp.from != NAMESPACE {
        PushNew(ForeignImport(imp.from, imp.name));
        return;
      }
      if imp.name == MEMORY {
        if imp.kind.MemoryImport? {
          JudgeMemory(imp.kind.decl, policy);
        } else {
          PushNew(WrongImportKind(imp.name));
        }
      } else if imp.name == REPLY_LEN {
        ExpectFunc(imp.kind, REPLY_LEN_SIG, imp.name);
      } else if imp.name == REPLY_READ {
        ExpectFunc(imp.kind, GROUP_SIG, imp.name);
      } else {
        var group := GroupNamed(imp.name);
        if group.None? {
          PushNew(UnknownImport(imp.name));
        } else {
          ghost var was := out;
          ExpectFunc(imp.kind, GROUP_SIG, imp.name);
          NonePushed(out);
          PushedBoth(was, FuncReason(imp.kind, GROUP_SIG, imp.name),
                     if Opened(policy, group.value) then [] else [UndeclaredGroup(group.value)]);
          if !Opened(policy, group.value) {
            PushNew(UndeclaredGroup(group.value));
          }
        }
      }
    }

    method JudgeImports(insp: Inspection, policy: Policy)
      modifies this
      ensures out == ImportsOut(insp.imports, policy, old(out))
    {
      hide ImportReasons, PushAll;
      ghost var was := out;
      for n := 0 to |insp.imports|
        invariant ImportsOut(insp.imports[n..], policy, out) == ImportsOut(insp.imports, policy, was)
      {
        assert insp.imports[n..][0] == insp.imports[n] && insp.imports[n..][1..] == insp.imports[n + 1..];
        JudgeImport(insp.imports[n], policy);
      }
    }

    method JudgeExports(insp: Inspection)
      modifies this
      ensures out == old(out) + RequiredReasons(insp, |REQUIRED_EXPORTS|) + FrameReason(insp)
    {
      hide Exported;
      ghost var was := out;
      for n := 0 to |REQUIRED_EXPORTS|
        invariant out == was + RequiredReasons(insp, n)
      {
        var (name, want) := REQUIRED_EXPORTS[n];
        match Exported(insp.exports, name) {
          case None => Push(MissingExport(name));
          case Some(kind) =>
            if kind != FuncExport(want) {
              Push(WrongExportSignature(name));
            }
        }
      }
      match Exported(insp.exports, EXPORT_FRAME)
      case None =>
      case Some(kind) =>
        if kind != FuncExport(FRAME_SIG) {
          Push(WrongExportSignature(EXPORT_FRAME));
        }
    }

    /** The whole verdict on one module, starting from an empty report. */
    method Judge(insp: Inspection, policy: Policy)
      requires out == []
      modifies this
      ensures out == VerdictOf(insp, policy)
    {
      hide ImportsOut, RequiredReasons, FrameReason;
      if insp.usesThreads {
        Push(Threads);
      }
      assert out == if insp.usesThreads then [Threads] else [];
      JudgeImports(insp, policy);
      ghost var was := out;
      if ImportedMemory(insp.imports).None? {
        Push(MemoryNotImported);
      }
      assert out == was + (if ImportedMemory(insp.imports).None? then [MemoryNotImported] else []);
      was := out;
      if insp.definedMemories != [] {
        Push(MemoryDefined);
      }
      assert out == was + (if insp.definedMemories != [] then [MemoryDefined] else []);
      was := out;
      if insp.hasStart {
        Push(StartFunction);
      }
      assert out == was + (if insp.hasStart then [StartFunction] else []);
      JudgeExports(insp);
    }
  }

  lemma NonePushed(out: seq<Rejection>)
    ensures PushAll(out, []) == out
  {
  }

  lemma {:induction false} PushedBoth(out: seq<Rejection>, a: seq<Rejection>, b: seq<Rejection>)
    ensures PushAll(out, a + b) == PushAll(PushAll(out, a), b)
    decreases |a|
  {
    if a == [] {
      assert a + b == b;
    } else {
      assert (a + b)[1..] == a[1..] + b;
      PushedBoth(PushOnce(out, a[0]), a[1..], b);
    }
  }

  // ---------------------------------------------------------------- the rules, declared

  ghost predicate IsFunc(kind: ImportKind, want: FuncSig) {
    kind == FuncImport(want)
  }

  /** An import the ABI offers, of the right kind, and declared for. */
  ghost predicate ImportOk(imp: Import, policy: Policy) {
    && imp.from == NAMESPACE
    && if imp.name == MEMORY
       then imp.kind.MemoryImport? && !imp.kind.decl.shared && !imp.kind.decl.memory64
            && imp.kind.decl.initialPages <= policy.maxMemoryPages
       else if imp.name == REPLY_LEN then IsFunc(imp.kind, REPLY_LEN_SIG)
       else if imp.name == REPLY_READ then IsFunc(imp.kind, GROUP_SIG)
       else GroupNamed(imp.name).Some? && IsFunc(imp.kind, GROUP_SIG) && Opened(policy, GroupNamed(imp.name).value)
  }

  ghost predicate ExportsOk(insp: Inspection) {
    && (forall i :: 0 <= i < |REQUIRED_EXPORTS| ==>
          Exported(insp.exports, REQUIRED_EXPORTS[i].0) == Some(FuncExport(REQUIRED_EXPORTS[i].1)))
    && (Exported(insp.exports, EXPORT_FRAME).Some? ==>
          Exported(insp.exports, EXPORT_FRAME) == Some(FuncExport(FRAME_SIG)))
  }

  /** The rules a module must meet. */
  ghost predicate Conforms(insp: Inspection, policy: Policy) {
    && !insp.usesThreads && !insp.hasStart && insp.definedMemories == []
    && (forall imp :: imp in insp.imports ==> ImportOk(imp, policy))
    && (exists imp :: imp in insp.imports && imp.from == NAMESPACE && imp.name == MEMORY)
    && ExportsOk(insp)
  }

  /** An import of a name the ABI gives a function of signature `want`. */
  ghost predicate NamesFunc(imp: Import, want: FuncSig) {
    && imp.from == NAMESPACE && imp.name != MEMORY
    && if imp.name == REPLY_LEN then want == REPLY_LEN_SIG
       else (imp.name == REPLY_READ || GroupNamed(imp.name).Some?) && want == GROUP_SIG
  }

  ghost predicate NamesMemory(imp: Import) {
    imp.from == NAMESPACE && imp.name == MEMORY
  }

  /** When one import gives a reason. */
  ghost predicate Gives(imp: Import, policy: Policy, r: Rejection) {
    match r
    case ForeignImport(from, name) => imp.from == from != NAMESPACE && imp.name == name
    case UnknownImport(name) =>
      && imp.from == NAMESPACE && imp.name == name
      && name != MEMORY && name != REPLY_LEN && name != REPLY_READ && GroupNamed(name).None?
    case WrongImportKind(name) =>
      && imp.name == name
      && ((NamesMemory(imp) && !imp.kind.MemoryImport?)
          || (!imp.kind.FuncImport? && exists want :: NamesFunc(imp, want)))
    case WrongImportSignature(name) =>
      imp.name == name && imp.kind.FuncImport? && exists want :: NamesFunc(imp, want) && imp.kind.sig != want
    case UndeclaredGroup(group) =>
      && NamesFunc(imp, GROUP_SIG) && imp.name != REPLY_READ
      && GroupNamed(imp.name) == Some(group) && !Opened(policy, group)
    case SharedMemory => NamesMemory(imp) && imp.kind.MemoryImport? && imp.kind.decl.shared
    case Memory64 => NamesMemory(imp) && imp.kind.MemoryImport? && imp.kind.decl.memory64
    case MemoryInitialTooLarge(pages, most) =>
      && NamesMemory(imp) && imp.kind.MemoryImport? && imp.kind.decl.initialPages == pages
      && most == policy.maxMemoryPages < pages
    case _ => false
  }

  /** An import's reasons are exactly those it gives. */
  lemma ImportGives(imp: Import, policy: Policy)
    ensures forall r :: r in ImportReasons(imp, policy) <==> Gives(imp, policy, r)
  {
    hide GroupNamed;
    assert NamesFunc(imp, GROUP_SIG) || NamesFunc(imp, REPLY_LEN_SIG) || forall want :: !NamesFunc(imp, want);
  }

  /** When a reason applies. */
  ghost predicate Applies(insp: Inspection, policy: Policy, r: Rejection) {
    match r
    case Threads => insp.usesThreads
    case MemoryNotImported => forall imp :: imp in insp.imports ==> !(imp.kind.MemoryImport? && imp.from == NAMESPACE)
    case MemoryDefined => insp.definedMemories != []
    case StartFunction => insp.hasStart
    case MissingExport(name) =>
      exists i :: 0 <= i < |REQUIRED_EXPORTS| && REQUIRED_EXPORTS[i].0 == name && Exported(insp.exports, name).None?
    case WrongExportSignature(name) =>
      && Exported(insp.exports, name).Some?
      && ((name == EXPORT_FRAME && Exported(insp.exports, name).value != FuncExport(FRAME_SIG))
          || exists i :: 0 <= i < |REQUIRED_EXPORTS| && REQUIRED_EXPORTS[i].0 == name
                         && Exported(insp.exports, name).value != FuncExport(REQUIRED_EXPORTS[i].1))
    case _ => exists imp :: imp in insp.imports && Gives(imp, policy, r)
  }

  ghost predicate OfImports(r: Rejection) {
    r.ForeignImport? || r.UnknownImport? || r.WrongImportKind? || r.WrongImportSignature? || r.UndeclaredGroup?
    || r.SharedMemory? || r.Memory64? || r.MemoryInitialTooLarge?
  }

  ghost predicate Distinct(out: seq<Rejection>) {
    forall i, j :: 0 <= i < j < |out| ==> out[i] != out[j]
  }

  lemma {:induction false} PushedAll(out: seq<Rejection>, rs: seq<Rejection>)
    ensures forall r :: r in PushAll(out, rs) <==> r in out || r in rs
    ensures Distinct(out) ==> Distinct(PushAll(out, rs))
    decreases |rs|
  {
    if rs != [] {
      PushedAll(PushOnce(out, rs[0]), rs[1..]);
      assert rs == [rs[0]] + rs[1..];
    }
  }

  lemma {:induction false} ImportsListed(imports: seq<Import>, policy: Policy, out: seq<Rejection>)
    ensures forall r :: r in ImportsOut(imports, policy, out) <==>
                        r in out || exists imp :: imp in imports && r in ImportReasons(imp, policy)
    ensures Distinct(out) ==> Distinct(ImportsOut(imports, policy, out))
    decreases |imports|
  {
    hide ImportReasons, PushAll, Distinct;
    if imports != [] {
      var pushed := PushAll(out, ImportReasons(imports[0], policy));
      PushedAll(out, ImportReasons(imports[0], policy));
      ImportsListed(imports[1..], policy, pushed);
      assert imports == [imports[0]] + imports[1..];
    }
  }

  lemma ReasonsAreOfImports(imp: Import, policy: Policy)
    ensures forall r :: r in ImportReasons(imp, policy) ==> OfImports(r)
    ensures ImportReasons(imp, policy) == [] <==> ImportOk(imp, policy)
  {
    hide GroupNamed;
  }

  lemma {:induction false} MemoryFound(imports: seq<Import>)
    ensures ImportedMemory(imports).None?
            <==> forall imp :: imp in imports ==> !(imp.kind.MemoryImport? && imp.from == NAMESPACE)
  {
    if imports != [] {
      MemoryFound(imports[1..]);
      assert imports == [imports[0]] + imports[1..];
    }
  }

  function ExportName(r: Rejection): string {
    if r.MissingExport? || r.WrongExportSignature? then r.name else ""
  }

  /** Reasons that name a required export that is missing or not as it must be. */
  lemma {:induction false} RequiredListed(insp: Inspection, n: nat)
    requires n <= |REQUIRED_EXPORTS|
    ensures forall r :: r in RequiredReasons(insp, n) <==>
                        exists i :: 0 <= i < n
                                    && r in RequiredReason(insp, REQUIRED_EXPORTS[i].0, REQUIRED_EXPORTS[i].1)
    ensures forall r :: r in RequiredReasons(insp, n) ==>
                        (r.MissingExport? || r.WrongExportSignature?)
                        && exists i :: 0 <= i < n && ExportName(r) == REQUIRED_EXPORTS[i].0
    ensures Distinct(RequiredReasons(insp, n))
  {
    hide Exported;
    if n > 0 {
      RequiredListed(insp, n - 1);
      NamesDiffer(n - 1);
      var last := RequiredReason(insp, REQUIRED_EXPORTS[n - 1].0, REQUIRED_EXPORTS[n - 1].1);
      assert forall r :: r in last ==> ExportName(r) == REQUIRED_EXPORTS[n - 1].0;
      DistinctJoin(RequiredReasons(insp, n - 1), last);
    }
  }

  lemma NamesDiffer(n: nat)
    requires n < |REQUIRED_EXPORTS|
    ensures forall i :: 0 <= i < n ==> REQUIRED_EXPORTS[i].0 != REQUIRED_EXPORTS[n].0
    ensures REQUIRED_EXPORTS[n].0 != EXPORT_FRAME
  {
    assert REQUIRED_EXPORTS[0].0[4] == 'a' && REQUIRED_EXPORTS[1].0[4] == 'f' && REQUIRED_EXPORTS[2].0[4] == 'i';
    assert REQUIRED_EXPORTS[3].0[4] == 'e' && REQUIRED_EXPORTS[4].0[4] == 'c' && EXPORT_FRAME[5] == 'r';
    assert REQUIRED_EXPORTS[1].0[6] == 'e' && EXPORT_FRAME[6] == 'a';
  }

  lemma DistinctJoin(a: seq<Rejection>, b: seq<Rejection>)
    requires Distinct(a) && Distinct(b) && forall r :: r in b ==> r !in a
    ensures Distinct(a + b)
  {
    forall i, j | 0 <= i < j < |a + b| ensures (a + b)[i] != (a + b)[j] {
      if i < |a| <= j {
        assert a[i] in a && b[j - |a|] in b;
      }
    }
  }

  /** The parts of a verdict, in its order. */
  ghost function Singles(insp: Inspection): seq<Rejection> {
    (if ImportedMemory(insp.imports).None? then [MemoryNotImported] else [])
    + (if insp.definedMemories != [] then [MemoryDefined] else [])
    + (if insp.hasStart then [StartFunction] else [])
  }

  lemma VerdictParts(insp: Inspection, policy: Policy)
    ensures VerdictOf(insp, policy) ==
            ImportsOut(insp.imports, policy, if insp.usesThreads then [Threads] else [])
            + (Singles(insp) + (RequiredReasons(insp, |REQUIRED_EXPORTS|) + FrameReason(insp)))
  {
    hide ImportsOut, RequiredReasons, FrameReason;
  }

  lemma ImportReasonsListed(insp: Inspection, policy: Policy)
    ensures var out := ImportsOut(insp.imports, policy, if insp.usesThreads then [Threads] else []);
            && Distinct(out)
            && (forall r :: r in out <==> (r.Threads? || OfImports(r)) && Applies(insp, policy, r))
  {
    hide ImportReasons, ImportsOut, Exported, Gives, GroupNamed;
    ImportsListed(insp.imports, policy, if insp.usesThreads then [Threads] else []);
    forall imp
      ensures forall r :: r in ImportReasons(imp, policy) ==> OfImports(r)
      ensures forall r :: r in ImportReasons(imp, policy) <==> Gives(imp, policy, r)
    {
      ReasonsAreOfImports(imp, policy);
      ImportGives(imp, policy);
    }
  }

  lemma SinglesListed(insp: Inspection, policy: Policy)
    ensures Distinct(Singles(insp))
    ensures forall r :: r in Singles(insp) <==>
                        (r.MemoryNotImported? || r.MemoryDefined? || r.StartFunction?) && Applies(insp, policy, r)
  {
    hide ImportReasons, Exported, Gives;
    MemoryFound(insp.imports);
  }

  lemma ExportReasonsListed(insp: Inspection, policy: Policy)
    ensures var out := RequiredReasons(insp, |REQUIRED_EXPORTS|) + FrameReason(insp);
            && Distinct(out)
            && (forall r :: r in out <==> (r.MissingExport? || r.WrongExportSignature?) && Applies(insp, policy, r))
  {
    hide Exported, RequiredReasons, ImportReasons, Gives;
    var n := |REQUIRED_EXPORTS|;
    RequiredListed(insp, n);
    forall i | 0 <= i < n ensures REQUIRED_EXPORTS[i].0 != EXPORT_FRAME {
      NamesDiffer(i);
    }
    assert forall r :: r in FrameReason(insp) ==> ExportName(r) == EXPORT_FRAME;
    DistinctJoin(RequiredReasons(insp, n), FrameReason(insp));
  }

  /** For every module and policy: a reason is listed exactly when it applies, and once. */
  lemma EveryReasonOnce(insp: Inspection, policy: Policy)
    ensures forall r :: r in VerdictOf(insp, policy) <==> Applies(insp, policy, r)
    ensures Distinct(VerdictOf(insp, policy))
  {
    hide ImportsOut, RequiredReasons, FrameReason, Applies, Singles, VerdictOf, Distinct;
    VerdictParts(insp, policy);
    ImportReasonsListed(insp, policy);
    SinglesListed(insp, policy);
    ExportReasonsListed(insp, policy);
    var first := ImportsOut(insp.imports, policy, if insp.usesThreads then [Threads] else []);
    var exports := RequiredReasons(insp, |REQUIRED_EXPORTS|) + FrameReason(insp);
    DistinctJoin(Singles(insp), exports);
    DistinctJoin(first, Singles(insp) + exports);
  }

  /** An export is judged by its first entry. */
  lemma {:induction false} ExportedIsFirst(exports: seq<(string, ExportKind)>, name: string, kind: ExportKind)
    ensures Exported(exports, name) == Some(kind) <==>
            exists n: nat :: n < |exports| && exports[n] == (name, kind)
                             && forall i: nat :: i < n ==> exports[i].0 != name
    ensures Exported(exports, name).None? <==> forall i: nat :: i < |exports| ==> exports[i].0 != name
  {
    if exports != [] {
      var rest := exports[1..];
      ExportedIsFirst(rest, name, kind);
      assert forall i: nat :: i < |rest| ==> rest[i] == exports[i + 1];
      if exports[0].0 != name && Exported(rest, name) == Some(kind) {
        var n: nat :| n < |rest| && rest[n] == (name, kind) && forall i: nat :: i < n ==> rest[i].0 != name;
        assert exports[n + 1] == (name, kind);
        assert forall i: nat :: i < n + 1 ==> exports[i].0 != name;
      }
      if exists n: nat :: n < |exports| && exports[n] == (name, kind)
                          && forall i: nat :: i < n ==> exports[i].0 != name
      {
        var n: nat :| n < |exports| && exports[n] == (name, kind) && forall i: nat :: i < n ==> exports[i].0 != name;
        if n > 0 {
          assert exports[0].0 != name && rest[n - 1] == (name, kind);
          assert forall i: nat :: i < n - 1 ==> rest[i].0 != name;
        }
      }
    }
  }

  /** Where in a verdict a reason belongs: threads, then imports, then what is wrong with the whole module,
      then exports. */
  function Phase(r: Rejection): nat {
    match r
    case Threads => 0
    case MemoryNotImported => 2
    case MemoryDefined => 3
    case StartFunction => 4
    case MissingExport(_) => 5
    case WrongExportSignature(_) => 5
    case _ => 1
  }

  ghost predicate Phased(out: seq<Rejection>, low: nat, high: nat) {
    && (forall i :: 0 <= i < |out| ==> low <= Phase(out[i]) <= high)
    && (forall i, j :: 0 <= i < j < |out| ==> Phase(out[i]) <= Phase(out[j]))
  }

  lemma PhasedJoin(a: seq<Rejection>, b: seq<Rejection>, low: nat, m: nat, high: nat)
    requires Phased(a, low, m) && Phased(b, m, high) && low <= m <= high
    ensures Phased(a + b, low, high)
  {
  }

  lemma {:induction false} PushedPhased(out: seq<Rejection>, rs: seq<Rejection>)
    requires Phased(out, 0, 1) && forall i :: 0 <= i < |rs| ==> Phase(rs[i]) == 1
    ensures Phased(PushAll(out, rs), 0, 1)
    decreases |rs|
  {
    if rs != [] {
      PushedPhased(PushOnce(out, rs[0]), rs[1..]);
    }
  }

  lemma {:induction false} ImportsPhased(imports: seq<Import>, policy: Policy, out: seq<Rejection>)
    requires Phased(out, 0, 1)
    ensures Phased(ImportsOut(imports, policy, out), 0, 1)
    decreases |imports|
  {
    hide ImportReasons, PushAll, Phased;
    if imports != [] {
      var rs := ImportReasons(imports[0], policy);
      ReasonsAreOfImports(imports[0], policy);
      forall i | 0 <= i < |rs| ensures Phase(rs[i]) == 1 {
        assert rs[i] in rs;
      }
      PushedPhased(out, rs);
      ImportsPhased(imports[1..], policy, PushAll(out, rs));
    }
  }

  lemma ExportsPhased(insp: Inspection, policy: Policy)
    ensures Phased(RequiredReasons(insp, |REQUIRED_EXPORTS|) + FrameReason(insp), 5, 5)
  {
    hide RequiredReasons, FrameReason, Exported, Applies;
    var exports := RequiredReasons(insp, |REQUIRED_EXPORTS|) + FrameReason(insp);
    ExportReasonsListed(insp, policy);
    forall i | 0 <= i < |exports| ensures Phase(exports[i]) == 5 {
      assert exports[i] in exports;
    }
  }

  lemma SinglesPhased(insp: Inspection)
    ensures Phased(Singles(insp), 1, 5)
  {
    hide ImportedMemory;
  }

  /** A verdict lists its reasons phase by phase. */
  lemma VerdictIsPhased(insp: Inspection, policy: Policy)
    ensures forall i, j :: 0 <= i < j < |VerdictOf(insp, policy)| ==>
              Phase(VerdictOf(insp, policy)[i]) <= Phase(VerdictOf(insp, policy)[j])
  {
    hide ImportsOut, RequiredReasons, FrameReason, VerdictOf, Singles, Phased, Phase;
    var out := ImportsOut(insp.imports, policy, if insp.usesThreads then [Threads] else []);
    var exports := RequiredReasons(insp, |REQUIRED_EXPORTS|) + FrameReason(insp);
    VerdictParts(insp, policy);
    ThreadsPhased(insp);
    ImportsPhased(insp.imports, policy, if insp.usesThreads then [Threads] else []);
    ExportsPhased(insp, policy);
    SinglesPhased(insp);
    PhasedJoin(Singles(insp), exports, 1, 5, 5);
    PhasedJoin(out, Singles(insp) + exports, 0, 1, 5);
    PhasedIs(VerdictOf(insp, policy), 0, 5);
  }

  lemma ThreadsPhased(insp: Inspection)
    ensures Phased(if insp.usesThreads then [Threads] else [], 0, 1)
  {
  }

  lemma PhasedIs(out: seq<Rejection>, low: nat, high: nat)
    requires Phased(out, low, high)
    ensures forall i, j :: 0 <= i < j < |out| ==> Phase(out[i]) <= Phase(out[j])
  {
  }

  /** A module is accepted exactly when it conforms: in particular its memory is imported from the
      ABI's namespace under the ABI's name, within the ceiling. */
  lemma AcceptedIfConforms(insp: Inspection, policy: Policy)
    ensures VerdictOf(insp, policy) == [] <==> Conforms(insp, policy)
  {
    hide ImportsOut, RequiredReasons, FrameReason, ImportReasons, Exported, VerdictOf, GroupNamed;
    EveryReasonOnce(insp, policy);
    forall imp ensures ImportReasons(imp, policy) == [] <==> ImportOk(imp, policy) {
      ReasonsAreOfImports(imp, policy);
    }
    if VerdictOf(insp, policy) == [] {
      NothingApplies(insp, policy);
    }
    if Conforms(insp, policy) {
      ConformingHasNoReason(insp, policy);
    }
  }

  lemma FirstReasonApplies(insp: Inspection, imp: Import, policy: Policy)
    requires imp in insp.imports && ImportReasons(imp, policy) != []
    ensures Applies(insp, policy, ImportReasons(imp, policy)[0])
  {
    hide ImportReasons, Exported, Gives, GroupNamed;
    ReasonsAreOfImports(imp, policy);
    ImportGives(imp, policy);
    FirstIsElement(ImportReasons(imp, policy));
    assert OfImports(ImportReasons(imp, policy)[0]);
  }

  lemma NothingApplies(insp: Inspection, policy: Policy)
    requires forall r :: !Applies(insp, policy, r)
    ensures Conforms(insp, policy)
  {
    hide ImportReasons, Exported, GroupNamed, Gives;
    assert !Applies(insp, policy, Threads) && !Applies(insp, policy, MemoryDefined)
           && !Applies(insp, policy, StartFunction);
    forall imp | imp in insp.imports ensures ImportOk(imp, policy) {
      ReasonsAreOfImports(imp, policy);
      if ImportReasons(imp, policy) != [] {
        FirstReasonApplies(insp, imp, policy);
      }
    }
    assert !Applies(insp, policy, MemoryNotImported);
    forall i | 0 <= i < |REQUIRED_EXPORTS|
      ensures Exported(insp.exports, REQUIRED_EXPORTS[i].0) == Some(FuncExport(REQUIRED_EXPORTS[i].1))
    {
      assert !Applies(insp, policy, MissingExport(REQUIRED_EXPORTS[i].0));
      assert !Applies(insp, policy, WrongExportSignature(REQUIRED_EXPORTS[i].0));
    }
    assert !Applies(insp, policy, WrongExportSignature(EXPORT_FRAME));
  }

  lemma FirstIsElement(s: seq<Rejection>)
    requires s != []
    ensures s[0] in s
  {
  }

  lemma NothingAppliesTo(insp: Inspection, policy: Policy)
    requires Conforms(insp, policy)
    ensures forall r :: !Applies(insp, policy, r)
  {
    hide ImportReasons, Exported, GroupNamed, Gives;
    forall imp | imp in insp.imports ensures forall r :: !Gives(imp, policy, r) {
      ReasonsAreOfImports(imp, policy);
      ImportGives(imp, policy);
    }
    var memory :| memory in insp.imports && memory.from == NAMESPACE && memory.name == MEMORY;
    assert ImportOk(memory, policy);
  }

  lemma ConformingHasNoReason(insp: Inspection, policy: Policy)
    requires Conforms(insp, policy)
    requires forall r :: r in VerdictOf(insp, policy) <==> Applies(insp, policy, r)
    ensures VerdictOf(insp, policy) == []
  {
    hide Conforms, Applies, VerdictOf;
    NothingAppliesTo(insp, policy);
    if VerdictOf(insp, policy) != [] {
      FirstIsElement(VerdictOf(insp, policy));
      assert false;
    }
  }

  /** Neither the order of imports nor repeating one changes which reasons are listed. */
  lemma OrderDoesNotMatter(insp: Inspection, imports: seq<Import>, policy: Policy)
    requires forall imp :: imp in imports <==> imp in insp.imports
    ensures var other := insp.(imports := imports);
            && (forall r :: r in VerdictOf(other, policy) <==> r in VerdictOf(insp, policy))
            && |VerdictOf(other, policy)| == |VerdictOf(insp, policy)|
  {
    hide VerdictOf, ImportReasons, Exported, Gives;
    var other := insp.(imports := imports);
    EveryReasonOnce(insp, policy);
    EveryReasonOnce(other, policy);
    var a, b := VerdictOf(insp, policy), VerdictOf(other, policy);
    forall r ensures Applies(other, policy, r) <==> Applies(insp, policy, r) {
    }
    SameSize(a, b);
  }

  lemma {:induction false} SetSize(s: seq<Rejection>)
    requires Distinct(s)
    ensures |set r | r in s| == |s|
  {
    if s != [] {
      var front, last := s[..|s| - 1], s[|s| - 1];
      SetSize(front);
      assert (set r | r in s) == (set r | r in front) + {last};
    } else {
      assert (set r | r in s) == {};
    }
  }

  lemma SameSize(a: seq<Rejection>, b: seq<Rejection>)
    requires Distinct(a) && Distinct(b) && forall r :: r in a <==> r in b
    ensures |a| == |b|
  {
    hide Distinct;
    SetSize(a);
    SetSize(b);
    assert (set r | r in a) == (set r | r in b);
  }

  /** Declaring more and allowing more memory never turns an accepted module away. */
  lemma AcceptanceIsMonotone(insp: Inspection, policy: Policy, wider: Policy)
    requires VerdictOf(insp, policy) == []
    requires (forall g :: g in policy.declared ==> g in wider.declared) && policy.maxMemoryPages <= wider.maxMemoryPages
    ensures VerdictOf(insp, wider) == []
  {
    hide VerdictOf, Exported, GroupNamed;
    AcceptedIfConforms(insp, policy);
    AcceptedIfConforms(insp, wider);
  }
}
