/**
 * The environment the signing code runs in: the set of paths that exist, the
 * external tools it has started, and what those tools answer. Each
 * `subprocess.run` is an oracle: it either completes with an exit code,
 * captured output and the files the tool wrote, or raises.
 */
module Machine {
  import opened Paths

  /** What one `subprocess.run` gives back. */
  datatype Reply =
    | Exited(code: int, stdout: string, stderr: string, writes: set<Path>)
    | Raised(message: string)
  {
    /** The tool ran and exited with status 0. */
    predicate ExitedZero() {
      Exited? && code == 0
    }

    /** The paths the tool created (none when the call raised). */
    function Written(): set<Path> {
      if Exited? then writes else {}
    }
  }

  /** One tool invocation: an argument vector, or a command line handed to the shell. */
  datatype Invocation =
    | Argv(args: seq<string>)
    | Shell(line: string, cwd: Path)

  /** The answer to the call after the first `n` calls; a tool that cannot be started raises. */
  function ReplyAt(replies: seq<Reply>, n: nat): Reply
  {
    if n < |replies| then replies[n] else Raised("no such tool")
  }

  /** The answers left after `n` calls. */
  function Drop(replies: seq<Reply>, n: nat): seq<Reply>
  {
    if n <= |replies| then replies[n..] else []
  }

  lemma DropNext(replies: seq<Reply>, n: nat)
    ensures ReplyAt(Drop(replies, n), 0) == ReplyAt(replies, n)
    ensures Drop(Drop(replies, n), 1) == Drop(replies, n + 1)
  {
  }

  /** A directory that `rmdir` can remove: it exists and nothing lies beneath it. */
  predicate Removable(files: set<Path>, dir: Path)
  {
    dir in files && forall p :: p in files ==> !(dir + "/" <= p)
  }

  class Host {
    /** The paths that exist. */
    var files: set<Path>
    /** Every tool started so far, in order. */
    var log: seq<Invocation>
    /** The answers the coming tool calls will get, in order. */
    var replies: seq<Reply>

    constructor (files: set<Path>, replies: seq<Reply>)
      ensures this.files == files && this.replies == replies && log == []
    {
      this.files := files;
      this.replies := replies;
      log := [];
    }

    /** `subprocess.run(inv)`: records the call, takes the next answer and adds what the tool wrote. */
    method Run(inv: Invocation) returns (r: Reply)
      modifies this
      ensures r == ReplyAt(old(replies), 0)
      ensures replies == Drop(old(replies), 1)
      ensures log == old(log) + [inv]
      ensures files == old(files) + r.Written()
    {
      r := ReplyAt(replies, 0);
      replies := Drop(replies, 1);
      log := log + [inv];
      files := files + r.Written();
    }

    /** `mkdir(exist_ok=True)` and `mkstemp`: the path exists afterwards. */
    method Create(p: Path)
      modifies this
      ensures files == old(files) + {p}
      ensures log == old(log) && replies == old(replies)
    {
      files := files + {p};
    }

    /** `unlink`. */
    method Unlink(p: Path)
      modifies this
      ensures files == old(files) - {p}
      ensures log == old(log) && replies == old(replies)
    {
      files := files - {p};
    }

    /** `shutil.move(src, dst)`: `src` goes, `dst` is there (replaced when it was). */
    method Move(src: Path, dst: Path)
      requires src in files
      modifies this
      ensures files == old(files) - {src} + {dst}
      ensures log == old(log) && replies == old(replies)
    {
      files := files - {src} + {dst};
    }

    /** `rmdir`: removes an empty directory, and reports failure otherwise. */
    method RemoveDir(dir: Path) returns (removed: bool)
      modifies this
      ensures removed == Removable(old(files), dir)
      ensures files == if removed then old(files) - {dir} else old(files)
      ensures log == old(log) && replies == old(replies)
    {
      removed := dir in files && forall p | p in files :: !(dir + "/" <= p);
      if removed {
        files := files - {dir};
      }
    }
  }
}
