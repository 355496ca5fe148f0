/** The file system as the programs see it, and what a crash can leave of an interrupted operation. */
module Disk {
  import opened Wrappers

  type Files = map<string, string>

  datatype FileOp =
    | WriteFile(path: string, content: string)
    | Rename(src: string, dst: string)
    | Unlink(path: string)

  function Apply(fs: Files, op: FileOp): Files {
    match op
    case WriteFile(p, c) => fs[p := c]
    case Rename(s, d) => if s in fs then (fs - {s})[d := fs[s]] else fs
    case Unlink(p) => fs - {p}
  }

  /** What an interrupted write leaves: a proper prefix, with a replacement character when the cut
      falls inside a multi-byte character. */
  function Torn(content: string, n: nat, cut: bool): string
    requires n < |content|
  {
    content[..n] + if cut then ['\U{FFFD}'] else []
  }

  /** Renames and unlinks are atomic; a write can be cut anywhere. */
  ghost predicate Interrupted(fs: Files, op: FileOp, fs': Files) {
    || fs' == fs
    || (op.WriteFile? && exists n: nat, cut: bool :: n < |op.content| && fs' == fs[op.path := Torn(op.content, n, cut)])
  }

  /** How one write ends for a process that survives it: an error can strike before the first byte or
      behind any of them. */
  datatype WriteOutcome = Written | Refused | Partial(n: nat, cut: bool)

  function Arrived(content: string, w: WriteOutcome): Option<string> {
    match w
    case Written => Some(content)
    case Refused => None
    case Partial(n, cut) => Some(if n < |content| then Torn(content, n, cut) else content)
  }

  /** The operations an attempted write amounts to. */
  function WriteOps(path: string, content: string, w: WriteOutcome): seq<FileOp> {
    match Arrived(content, w) case None => [] case Some(c) => [WriteFile(path, c)]
  }

  function ApplyAll(fs: Files, ops: seq<FileOp>): Files
    decreases ops
  {
    if ops == [] then fs else ApplyAll(Apply(fs, ops[0]), ops[1..])
  }

  lemma {:induction false} ApplyAllAppend(fs: Files, a: seq<FileOp>, b: seq<FileOp>)
    ensures ApplyAll(fs, a + b) == ApplyAll(ApplyAll(fs, a), b)
    decreases a
  {
    if a == [] {
      assert a + b == b;
    } else {
      assert (a + b)[1..] == a[1..] + b;
      ApplyAllAppend(Apply(fs, a[0]), a[1..], b);
    }
  }

  lemma ApplyOne(fs: Files, op: FileOp)
    ensures ApplyAll(fs, [op]) == Apply(fs, op)
  {
    assert [op][1..] == [];
  }

  lemma ApplyNothing(fs: Files)
    ensures ApplyAll(fs, []) == fs
  {}

  // ---- Saving through a temporary file --------------------------------------------------------

  /** The clock, and what befalls the two file operations of a save. */
  datatype SaveEnv = SaveEnv(now: nat, temp: WriteOutcome, renameFault: bool)

  predicate Succeeds(env: SaveEnv) {
    env.temp == Written && !env.renameFault
  }

  function TempOf(path: string): string {
    path + ".tmp"
  }

  /** The temporary file is written, then renamed over the real one. */
  function AtomicSave(path: string, text: string, env: SaveEnv): seq<FileOp> {
    WriteOps(TempOf(path), text, env.temp) + if Succeeds(env) then [Rename(TempOf(path), path)] else []
  }

  /** The operations are one write, or a full write and a rename, and nothing else. */
  lemma SaveShape(path: string, text: string, env: SaveEnv)
    ensures var ops := AtomicSave(path, text, env);
      if Succeeds(env) then ops == [WriteFile(TempOf(path), text), Rename(TempOf(path), path)]
      else ops == [] || exists part :: ops == [WriteFile(TempOf(path), part)]
    ensures TempOf(path) != path
  {
    assert |TempOf(path)| == |path| + 4;
    hide TempOf;
    var w := WriteOps(TempOf(path), text, env.temp);
    assert w + [] == w;
    if !Succeeds(env) && env.temp != Refused {
      assert w == [WriteFile(TempOf(path), Arrived(text, env.temp).value)];
    }
  }

  lemma SaveApplied(fs: Files, path: string, text: string, env: SaveEnv)
    ensures var fs' := ApplyAll(fs, AtomicSave(path, text, env));
      && (Succeeds(env) ==> path in fs' && fs'[path] == text && TempOf(path) !in fs')
      && (!Succeeds(env) ==> (path in fs' <==> path in fs) && (path in fs ==> fs'[path] == fs[path]))
      && (forall p :: p != path && p != TempOf(path) ==> (p in fs' <==> p in fs) && (p in fs ==> fs'[p] == fs[p]))
  {
    SaveShape(path, text, env);
    hide AtomicSave, TempOf, ApplyAll;
    var ops := AtomicSave(path, text, env);
    if Succeeds(env) {
      assert ops == [ops[0]] + [ops[1]];
      ApplyAllAppend(fs, [ops[0]], [ops[1]]);
      ApplyOne(fs, ops[0]);
      ApplyOne(Apply(fs, ops[0]), ops[1]);
    } else if ops == [] {
      ApplyNothing(fs);
    } else {
      ApplyOne(fs, ops[0]);
    }
  }

  /** What the disk holds if the process dies after `k` operations, possibly inside the next one. */
  ghost predicate CrashImage(fs: Files, ops: seq<FileOp>, k: nat, fs': Files)
    requires k <= |ops|
  {
    if k < |ops| then Interrupted(ApplyAll(fs, ops[..k]), ops[k], fs') else fs' == ApplyAll(fs, ops)
  }

  /** A save is atomic: whatever interrupts it, the file is the old one or the new one. */
  lemma SaveIsAtomic(fs: Files, path: string, text: string, env: SaveEnv, k: nat, fs': Files)
    requires k <= |AtomicSave(path, text, env)| && CrashImage(fs, AtomicSave(path, text, env), k, fs')
    ensures
      || ((path in fs' <==> path in fs) && (path in fs ==> fs'[path] == fs[path]))
      || (Succeeds(env) && k == 2 && path in fs' && fs'[path] == text)
  {
    SaveShape(path, text, env);
    SaveApplied(fs, path, text, env);
    hide AtomicSave, TempOf, ApplyAll;
    var ops := AtomicSave(path, text, env);
    ApplyNothing(fs);
    if k == 0 {
      assert ops[..0] == [];
    } else if k < |ops| {
      assert ops[..1] == [ops[0]];
      ApplyOne(fs, ops[0]);
    }
  }

  datatype Unlinking = Deleted | NotFound | NotPermitted

  /** The disk the managers share, with the operations carried out on it so far. */
  class FileSystem {
    var files: Files
    ghost var log: seq<FileOp>

    constructor ()
      ensures files == map[] && log == []
    {
      files, log := map[], [];
    }

    method ReadFile(path: string, fault: bool) returns (content: Option<string>)
      ensures content == if fault || path !in files then None else Some(files[path])
    {
      content := if fault || path !in files then None else Some(files[path]);
    }

    method Write(path: string, content: string, w: WriteOutcome) returns (ok: bool)
      modifies this
      ensures ok <==> w == Written
      ensures files == ApplyAll(old(files), WriteOps(path, content, w)) && log == old(log) + WriteOps(path, content, w)
    {
      var arrived := Arrived(content, w);
      if arrived.Some? {
        files := files[path := arrived.value];
        ApplyOne(old(files), WriteFile(path, arrived.value));
      }
      log := log + WriteOps(path, content, w);
      ok := w == Written;
    }

    method RenameFile(src: string, dst: string, fault: bool) returns (ok: bool)
      requires src in files
      modifies this
      ensures ok == !fault
      ensures var ops := if fault then [] else [Rename(src, dst)];
        files == ApplyAll(old(files), ops) && log == old(log) + ops
    {
      ok := !fault;
      if !fault {
        files := (files - {src})[dst := files[src]];
        log := log + [Rename(src, dst)];
        ApplyOne(old(files), Rename(src, dst));
      }
    }

    method UnlinkFile(path: string, fault: bool) returns (r: Unlinking)
      modifies this
      ensures r == if fault then NotPermitted else if path in old(files) then Deleted else NotFound
      ensures var ops := if fault then [] else [Unlink(path)];
        files == ApplyAll(old(files), ops) && log == old(log) + ops
      ensures files == if fault then old(files) else old(files) - {path}
    {
      r := if fault then NotPermitted else if path in files then Deleted else NotFound;
      if !fault {
        files := files - {path};
        log := log + [Unlink(path)];
        ApplyOne(old(files), Unlink(path));
      }
    }

    method SaveAtomically(path: string, text: string, env: SaveEnv) returns (ok: bool)
      modifies this
      ensures ok <==> Succeeds(env)
      ensures files == ApplyAll(old(files), AtomicSave(path, text, env)) && log == old(log) + AtomicSave(path, text, env)
    {
      hide TempOf, ApplyAll;
      ghost var first := WriteOps(TempOf(path), text, env.temp);
      ghost var second := if Succeeds(env) then [Rename(TempOf(path), path)] else [];
      ApplyAllAppend(files, first, second);
      ApplyNothing(ApplyAll(files, first));
      ApplyOne(files, WriteFile(TempOf(path), text));
      ok := Write(TempOf(path), text, env.temp);
      if ok {
        ok := RenameFile(TempOf(path), path, env.renameFault);
      }
    }
  }
}
