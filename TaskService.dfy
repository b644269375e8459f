/** TaskService.kt: the daemon's single job slot. A `TaskService` holds at most
    one `Task`; `createTaskFor` fills the slot, and a worker runs ffmpeg, follows
    its progress lines, then either deletes a truncated result or moves the result
    into place and cleans up the source, and finally empties the slot.

    The worker thread is modelled as the method `RunWorker`, run after a
    successful `CreateTaskFor`; the process output is its input, the truncation
    test an oracle, and the filesystem a set of path strings. */
module Tasks {
  import opened Text
  import opened Domain
  import CommandCreator

  // ===========================================================================
  // extractFrameFrom: the pattern `frame=\s*(?<frame>\d+)` found in a line
  // ===========================================================================

  const FrameKey: string := "frame="

  /** From position `i` on, `line` reads `frame=`, spaces, the digits `ds`, and a
      rest that does not go on with a digit: a match of the pattern at `i`. */
  predicate FrameShapeAt(line: string, i: nat, ws: string, ds: string, rest: string) {
    && All(ws, IsPatternSpace)
    && |ds| > 0 && All(ds, IsDigit)
    && (rest == [] || !IsDigit(rest[0]))
    && i <= |line| && line[i..] == FrameKey + ws + ds + rest
  }

  /** The `frame` group of a match starting exactly at `i`, if there is one. */
  function FrameAt(line: string, i: nat): Option<string>
    requires i <= |line|
  {
    if !OccursAt(line, FrameKey, i) then None
    else
      var after := line[i + |FrameKey|..];
      var w := RunLength(after, IsPatternSpace);
      var d := RunLength(after[w..], IsDigit);
      if d == 0 then None else Some(after[w..][..d])
  }

  /** What is recognised at `i` is a match of the pattern there. */
  lemma FrameAtSound(line: string, i: nat)
    requires i <= |line| && FrameAt(line, i).Some?
    ensures exists ws, rest :: FrameShapeAt(line, i, ws, FrameAt(line, i).value, rest)
  {
    var after := line[i + |FrameKey|..];
    assert line[i..] == FrameKey + after by {
      assert line[i..] == line[i..i + |FrameKey|] + after;
    }
    var w := RunLength(after, IsPatternSpace);
    var tail := after[w..];
    var d := RunLength(tail, IsDigit);
    assert after == after[..w] + tail;
    assert tail == tail[..d] + tail[d..];
    SplitFour(line[i..], FrameKey, after, after[..w], tail, tail[..d], tail[d..]);
    assert FrameShapeAt(line, i, after[..w], tail[..d], tail[d..]);
  }

  lemma SplitFour(s: string, a: string, s1: string, b: string, s2: string, c: string, d: string)
    requires s == a + s1 && s1 == b + s2 && s2 == c + d
    ensures s == a + b + c + d
  {
  }

  /** A match at `i` is recognised, with its whole digit run as the group. */
  lemma FrameAtComplete(line: string, i: nat, ws: string, ds: string, rest: string)
    requires FrameShapeAt(line, i, ws, ds, rest)
    ensures FrameAt(line, i) == Some(ds)
  {
    var s := line[i..];
    assert s == FrameKey + (ws + (ds + rest));
    assert s[..|FrameKey|] == FrameKey;
    assert line[i..i + |FrameKey|] == s[..|FrameKey|];
    assert OccursAt(line, FrameKey, i);
    var after := line[i + |FrameKey|..];
    assert after == s[|FrameKey|..] == ws + (ds + rest);
    RunLengthOfConcat(ws, ds + rest, IsPatternSpace);
    assert after[|ws|..] == ds + rest;
    RunLengthOfConcat(ds, rest, IsDigit);
    assert (ds + rest)[..|ds|] == ds;
  }

  /** `Matcher.find()` from position `from`: where the leftmost match starts. */
  function FindFrame(line: string, from: nat): (r: Option<nat>)
    requires from <= |line|
    ensures r.Some? ==> from <= r.value <= |line| && FrameAt(line, r.value).Some?
    ensures r.Some? ==> forall j :: from <= j < r.value ==> FrameAt(line, j).None?
    ensures r.None? ==> forall j :: from <= j <= |line| ==> FrameAt(line, j).None?
    decreases |line| - from
  {
    if FrameAt(line, from).Some? then Some(from)
    else if from == |line| then None
    else FindFrame(line, from + 1)
  }

  /** `extractFrameFrom`: the digits of the leftmost match, read by `toInt`.
      `None` stands for the exception thrown when nothing matches (`group` after a
      failed `find`) or the number does not fit in an `Int`. */
  function ExtractFrame(line: string): (r: Option<int>)
    ensures r.Some? ==> 0 <= r.value <= IntMax
  {
    match FindFrame(line, 0)
    case None => None
    case Some(i) => ToInt(FrameAt(line, i).value)
  }

  /** A line whose leftmost match carries the digits `ds` gives their value, or
      fails when that value exceeds `Int`. */
  lemma {:induction false} ExtractFrameOf(line: string, i: nat, ws: string, ds: string, rest: string)
    requires FrameShapeAt(line, i, ws, ds, rest)
    requires forall j :: 0 <= j < i ==> FrameAt(line, j).None?
    ensures ExtractFrame(line) == if DigitsValue(ds) <= IntMax then Some(DigitsValue(ds)) else None
  {
    FrameAtComplete(line, i, ws, ds, rest);
    FindFrameAt(line, 0, i);
  }

  lemma {:induction false} FindFrameAt(line: string, from: nat, i: nat)
    requires from <= i <= |line| && FrameAt(line, i).Some?
    requires forall j :: from <= j < i ==> FrameAt(line, j).None?
    ensures FindFrame(line, from) == Some(i)
    decreases i - from
  {
    if from < i { FindFrameAt(line, from + 1, i); }
  }

  /** A line with no match at all makes `extractFrameFrom` fail. */
  lemma ExtractFrameNoMatch(line: string)
    requires forall i, ws, ds, rest :: !FrameShapeAt(line, i, ws, ds, rest)
    ensures ExtractFrame(line).None?
  {
    match FindFrame(line, 0)
    case None =>
    case Some(i) =>
      FrameAtSound(line, i);
      assert false;
  }

  // ===========================================================================
  // transcodeVideoFile: the progress lines
  // ===========================================================================

  /** A line `transcodeVideoFile` looks at. */
  predicate IsFrameLine(line: string) { StartsWith(line, "frame") }

  /** The effect of one output line on `frame`: only lines starting with "frame"
      are looked at, and such a line either sets the frame or makes the worker
      fail (`None`). */
  function Step(frame: int, line: string): (r: Option<int>)
    ensures !IsFrameLine(line) ==> r == Some(frame)
    ensures IsFrameLine(line) ==> r == ExtractFrame(line)
    ensures r.None? ==> IsFrameLine(line)
  {
    if IsFrameLine(line) then ExtractFrame(line) else Some(frame)
  }

  /** The frame after reading the lines, and whether an unreadable frame line
      stopped the worker (the frame then keeps the value it had). */
  datatype Progress = Progress(frame: int, crashed: bool)

  function Replay(frame: int, lines: seq<string>): Progress
    decreases |lines|
  {
    if lines == [] then Progress(frame, false)
    else
      match Step(frame, lines[0])
      case None => Progress(frame, true)
      case Some(f) => Replay(f, lines[1..])
  }

  /** Lines that do not start with "frame" leave the frame alone. */
  lemma {:induction false} ReplayIgnoresOtherLines(frame: int, lines: seq<string>)
    requires forall k :: 0 <= k < |lines| ==> !IsFrameLine(lines[k])
    ensures Replay(frame, lines) == Progress(frame, false)
  {
    if lines != [] {
      ReplayIgnoresOtherLines(frame, lines[1..]);
    }
  }

  /** The worker fails exactly when some frame line cannot be read. */
  lemma {:induction false} ReplayCrashes(frame: int, lines: seq<string>)
    ensures Replay(frame, lines).crashed <==>
              exists k :: 0 <= k < |lines| && IsFrameLine(lines[k]) && ExtractFrame(lines[k]).None?
    decreases |lines|
  {
    if lines != [] {
      match Step(frame, lines[0])
      case None =>
      case Some(f) =>
        ReplayCrashes(f, lines[1..]);
        assert forall k :: 1 <= k < |lines| ==> lines[k] == lines[1..][k - 1];
        if exists k :: 1 <= k < |lines| && IsFrameLine(lines[k]) && ExtractFrame(lines[k]).None? {
          var k :| 1 <= k < |lines| && IsFrameLine(lines[k]) && ExtractFrame(lines[k]).None?;
          assert lines[1..][k - 1] == lines[k];
        }
    }
  }

  /** The last frame line wins, whatever the values before it: the frame is not
      required to grow. */
  lemma {:induction false} ReplayLastFrameLine(frame: int, lines: seq<string>, k: nat)
    requires k < |lines| && IsFrameLine(lines[k])
    requires forall j :: k < j < |lines| ==> !IsFrameLine(lines[j])
    requires !Replay(frame, lines).crashed
    ensures ExtractFrame(lines[k]).Some?
    ensures Replay(frame, lines).frame == ExtractFrame(lines[k]).value
    decreases k
  {
    var f := Step(frame, lines[0]).value;
    if k == 0 {
      assert forall j :: 0 <= j < |lines| - 1 ==> lines[1..][j] == lines[j + 1];
      ReplayIgnoresOtherLines(f, lines[1..]);
    } else {
      assert forall j :: k - 1 < j < |lines| - 1 ==> lines[1..][j] == lines[j + 1];
      ReplayLastFrameLine(f, lines[1..], k - 1);
    }
  }

  lemma FrameOfTwelve()
    ensures ExtractFrame("frame= 12 fps=24") == Some(12)
  {
    var line := "frame= 12 fps=24";
    assert line[0..] == FrameKey + " " + "12" + " fps=24";
    assert "12"[..1] == "1";
    assert DigitsValue("12") == 12;
    ExtractFrameOf(line, 0, " ", "12", " fps=24");
  }

  lemma FrameOfSeven()
    ensures ExtractFrame("frame=7") == Some(7)
  {
    assert "frame=7"[0..] == FrameKey + "" + "7" + "";
    assert DigitsValue("7") == 7;
    ExtractFrameOf("frame=7", 0, "", "7", "");
  }

  /** Frames are taken as reported, not kept monotonic: a later, smaller value
      replaces a larger one. */
  lemma FrameMayGoBack()
    ensures Replay(0, ["frame= 12 fps=24", "frame=7"]) == Progress(7, false)
  {
    FrameOfTwelve();
    FrameOfSeven();
    var lines := ["frame= 12 fps=24", "frame=7"];
    assert IsFrameLine(lines[0]) && IsFrameLine(lines[1]);
    assert lines[1..] == ["frame=7"];
    assert lines[1..][1..] == [];
  }

  // ===========================================================================
  // The filesystem
  // ===========================================================================

  /** The directories `mkdirs` may have to create for `dir`: `dir` and every
      prefix of it that ends just before a separator. */
  function Ancestors(dir: string): (r: set<string>)
    ensures dir != [] ==> dir in r
    ensures forall p :: p in r ==> p != [] && StartsWith(dir, p)
    ensures forall i :: 0 < i < |dir| && dir[i] == '/' ==> dir[..i] in r
    ensures forall p :: p in r ==> p == dir || exists i :: 0 < i < |dir| && dir[i] == '/' && p == dir[..i]
  {
    assert dir != [] ==> dir == dir[..|dir|];
    set i | 0 < i <= |dir| && (i == |dir| || dir[i] == '/') :: dir[..i]
  }

  /** `q` names an entry directly inside the directory `dir`. */
  predicate IsChildOf(q: string, dir: string) {
    && |q| > |dir| + 1
    && StartsWith(q, dir + "/")
    && (forall k :: |dir| + 1 <= k < |q| ==> q[k] != '/')
  }

  predicate HasChild(fs: set<string>, dir: string) {
    exists q :: q in fs && IsChildOf(q, dir)
  }

  /** The filesystem after a step, and whether the step ran to its end rather
      than throwing. */
  datatype FsStep = FsStep(files: set<string>, completed: bool)

  /** `handleSuccessfulResult`: create the output directory, move the temporary
      file onto the output file, delete the source, and delete the source's
      directory if that left it empty. The move throws when the temporary file is
      missing; `listFiles()!!` throws when the source's directory is missing. */
  function Finalize(fs: set<string>, t: Task): FsStep {
    var temporary, output, source, dir :=
      t.temporaryOutputFile.Path(), t.outputFile.Path(), t.sourceFile.Path(), t.sourceFile.parent;
    var created := fs + Ancestors(t.outputFile.parent);
    if temporary !in created then FsStep(created, false)
    else
      var moved := created - {temporary} + {output};
      var deleted := moved - {source};
      if dir !in deleted then FsStep(deleted, false)
      else if HasChild(deleted, dir) then FsStep(deleted, true)
      else FsStep(deleted - {dir}, true)
  }

  /** When the move and the listing succeed and the three files are distinct, the
      result is in place, the temporary file and the source are gone, and the
      source's directory remains exactly when something is left in it. */
  lemma FinalizeSucceeds(fs: set<string>, t: Task)
    requires t.temporaryOutputFile.Path() in fs
    requires t.sourceFile.parent in fs
    requires t.outputFile.Path() != t.sourceFile.Path()
    requires t.outputFile.Path() != t.sourceFile.parent
    requires t.temporaryOutputFile.Path() != t.outputFile.Path()
    requires t.temporaryOutputFile.Path() != t.sourceFile.parent
    requires t.sourceFile.parent != t.sourceFile.Path()
    ensures Finalize(fs, t).completed
    ensures t.outputFile.Path() in Finalize(fs, t).files
    ensures t.temporaryOutputFile.Path() !in Finalize(fs, t).files
    ensures t.sourceFile.Path() !in Finalize(fs, t).files
    ensures t.sourceFile.parent in Finalize(fs, t).files <==> HasChild(Finalize(fs, t).files, t.sourceFile.parent)
  {
    var dir := t.sourceFile.parent;
    var created := fs + Ancestors(t.outputFile.parent);
    var deleted := created - {t.temporaryOutputFile.Path()} + {t.outputFile.Path()} - {t.sourceFile.Path()};
    assert dir in deleted;
    if !HasChild(deleted, dir) {
      assert !IsChildOf(dir, dir);
      assert forall q :: q in deleted - {dir} ==> q in deleted;
    } else {
      var q :| q in deleted && IsChildOf(q, dir);
      assert q != dir;
      assert q in Finalize(fs, t).files;
    }
  }

  /** The step fails exactly when the temporary file is missing (even after
      `mkdirs`) or the source's directory is gone once the source is deleted. */
  lemma FinalizeFails(fs: set<string>, t: Task)
    ensures !Finalize(fs, t).completed <==>
              || t.temporaryOutputFile.Path() !in fs + Ancestors(t.outputFile.parent)
              || t.sourceFile.parent !in (fs + Ancestors(t.outputFile.parent)
                                           - {t.temporaryOutputFile.Path()} + {t.outputFile.Path()}
                                           - {t.sourceFile.Path()})
  {
  }

  /** Nothing but the paths the step names is touched: `mkdirs` only adds the
      output's directories, and only the temporary file, the output file, the
      source and its directory change otherwise. */
  lemma FinalizeTouchesOnlyItsPaths(fs: set<string>, t: Task, p: string)
    requires p !in Ancestors(t.outputFile.parent)
    requires p != t.temporaryOutputFile.Path() && p != t.outputFile.Path()
    requires p != t.sourceFile.Path() && p != t.sourceFile.parent
    ensures p in Finalize(fs, t).files <==> p in fs
  {
  }

  // ===========================================================================
  // The worker, as one specification
  // ===========================================================================

  /** What the worker leaves behind: the frame, the filesystem, and whether it
      reached `task = null`. */
  datatype WorkerEnd = WorkerEnd(frame: int, files: set<string>, released: bool)

  /** The worker thread of `createTaskFor`: read the progress lines while ffmpeg
      runs (`produced` tells whether ffmpeg wrote the temporary file), then delete
      a truncated result or finalize a good one. Any exception ends the thread
      before the slot is released. */
  function Worker(frame: int, fs: set<string>, t: Task, output: seq<string>,
                  produced: bool, truncated: bool): WorkerEnd
  {
    var p := Replay(frame, output);
    var written := if produced then fs + {t.temporaryOutputFile.Path()} else fs;
    if p.crashed then WorkerEnd(p.frame, written, false)
    else if truncated then WorkerEnd(p.frame, written - {t.temporaryOutputFile.Path()}, true)
    else
      var s := Finalize(written, t);
      WorkerEnd(p.frame, s.files, s.completed)
  }

  /** The slot is released exactly when no frame line was unreadable and either
      the result was truncated or finalizing it ran to its end. */
  lemma WorkerReleases(frame: int, fs: set<string>, t: Task, output: seq<string>,
                       produced: bool, truncated: bool)
    ensures Worker(frame, fs, t, output, produced, truncated).released <==>
              && !Replay(frame, output).crashed
              && (truncated || Finalize(if produced then fs + {t.temporaryOutputFile.Path()} else fs, t).completed)
  {
  }

  /** A truncated result removes only the temporary file: the source and any
      existing output are left as they were. */
  lemma WorkerTruncated(frame: int, fs: set<string>, t: Task, output: seq<string>, produced: bool, p: string)
    requires !Replay(frame, output).crashed
    requires p != t.temporaryOutputFile.Path()
    ensures Worker(frame, fs, t, output, produced, true).released
    ensures t.temporaryOutputFile.Path() !in Worker(frame, fs, t, output, produced, true).files
    ensures p in Worker(frame, fs, t, output, produced, true).files <==> p in fs
  {
  }

  /** End to end: ffmpeg wrote the result, every frame line was readable, the
      result is not truncated and the source's directory exists. Then the slot is
      released, the result is at the output path, and the temporary file and the
      source are gone. */
  lemma WorkerSucceeds(frame: int, fs: set<string>, t: Task, output: seq<string>)
    requires forall k :: 0 <= k < |output| && IsFrameLine(output[k]) ==> ExtractFrame(output[k]).Some?
    requires t.sourceFile.parent in fs
    requires t.outputFile.Path() != t.sourceFile.Path()
    requires t.outputFile.Path() != t.sourceFile.parent
    requires t.temporaryOutputFile.Path() != t.outputFile.Path()
    requires t.temporaryOutputFile.Path() != t.sourceFile.parent
    requires t.sourceFile.parent != t.sourceFile.Path()
    ensures Worker(frame, fs, t, output, true, false).released
    ensures t.outputFile.Path() in Worker(frame, fs, t, output, true, false).files
    ensures t.temporaryOutputFile.Path() !in Worker(frame, fs, t, output, true, false).files
    ensures t.sourceFile.Path() !in Worker(frame, fs, t, output, true, false).files
  {
    ReplayCrashes(frame, output);
    FinalizeSucceeds(fs + {t.temporaryOutputFile.Path()}, t);
  }

  // ===========================================================================
  // The service
  // ===========================================================================

  /** How a call of `createTaskFor` ended. */
  datatype Launch = AlreadyBusy | CreationFailed(error: Failure) | WorkerStarted

  class TaskService {
    /** The directories the command creator works with. */
    const config: Config
    /** The job slot, `task`. */
    var task: Option<Task>
    /** The last frame reported by ffmpeg, `frame`. */
    var frame: int
    /** The filesystem the worker acts on, as the set of existing paths. */
    var files: set<string>

    constructor(config: Config, files: set<string>)
      ensures this.config == config && this.files == files
      ensures task.None? && frame == 0
    {
      this.config := config;
      this.files := files;
      task := None;
      frame := 0;
    }

    /** `hasTask()`. */
    function HasTask(): (b: bool)
      reads this
      ensures b <==> task.Some?
    {
      task.Some?
    }

    /** `currentFrame()`. */
    function CurrentFrame(): (f: int)
      reads this
      ensures f == frame
    {
      frame
    }

    /** `frameCount()`: the held `Task`'s frame count, or -1 with none. */
    function FrameCount(): (n: int)
      reads this
      ensures task.None? ==> n == -1
      ensures task.Some? ==> n == task.value.frameCount
    {
      match task
      case None => -1
      case Some(t) => t.frameCount
    }

    /** `createTaskFor(file)`: nothing happens while a task is held; otherwise the
        command is created for `source` (from the probe output, the media tracks'
        frame counts and a fresh `uuid`) and, if that succeeds, its `Task` is stored
        and the worker is to be started. `frame` is not reset. */
    method CreateTaskFor(source: FileRef, probe: seq<string>, trackFrameCounts: seq<int>, uuid: string)
      returns (launch: Launch)
      modifies this`task
      ensures frame == old(frame) && files == old(files)
      ensures old(task).Some? ==> launch == AlreadyBusy && task == old(task)
      ensures old(task).None? ==>
                match CommandCreator.CreateCommand(config, source, uuid, probe, trackFrameCounts)
                case Err(e) => launch == CreationFailed(e) && task.None?
                case Ok(t) => launch == WorkerStarted && task == Some(t)
    {
      if HasTask() {
        return AlreadyBusy;
      }
      match CommandCreator.CreateCommand(config, source, uuid, probe, trackFrameCounts)
      case Err(e) =>
        launch := CreationFailed(e);
      case Ok(t) =>
        task := Some(t);
        launch := WorkerStarted;
    }

    /** `transcodeVideoFile`: every line starting with "frame" overwrites `frame`
        with the number it reports; an unreadable one ends the worker. */
    method TranscodeVideoFile(output: seq<string>) returns (crashed: bool)
      modifies this`frame
      ensures Progress(frame, crashed) == Replay(old(frame), output)
    {
      crashed := false;
      var i := 0;
      while i < |output|
        invariant 0 <= i <= |output|
        invariant Replay(old(frame), output) == Replay(frame, output[i..])
      {
        assert output[i..][1..] == output[i + 1..];
        var line := output[i];
        if IsFrameLine(line) {
          match ExtractFrame(line)
          case None =>
            crashed := true;
            return;
          case Some(f) =>
            frame := f;
        }
        i := i + 1;
      }
    }

    /** `handleTruncatedResult`: delete the temporary file. */
    method HandleTruncatedResult()
      requires task.Some?
      modifies this`files
      ensures files == old(files) - {task.value.temporaryOutputFile.Path()}
    {
      files := files - {task.value.temporaryOutputFile.Path()};
    }

    /** `handleSuccessfulResult`, step by step; `completed` is false when a step
        throws. */
    method HandleSuccessfulResult() returns (completed: bool)
      requires task.Some?
      modifies this`files
      ensures FsStep(files, completed) == Finalize(old(files), task.value)
    {
      var t := task.value;
      files := files + Ancestors(t.outputFile.parent);
      if t.temporaryOutputFile.Path() !in files {
        return false;
      }
      files := files - {t.temporaryOutputFile.Path()} + {t.outputFile.Path()};
      files := files - {t.sourceFile.Path()};
      if t.sourceFile.parent !in files {
        return false;
      }
      if !HasChild(files, t.sourceFile.parent) {
        files := files - {t.sourceFile.parent};
      }
      completed := true;
    }

    /** The worker thread started by `createTaskFor`. ffmpeg's output lines, whether
        it wrote the temporary file and the truncation verdict are inputs. The slot
        is emptied only when the thread runs to its end. */
    method RunWorker(output: seq<string>, produced: bool, truncated: bool) returns (released: bool)
      requires task.Some?
      modifies this`frame, this`files, this`task
      ensures WorkerEnd(frame, files, released) ==
                Worker(old(frame), old(files), old(task.value), output, produced, truncated)
      ensures released ==> task.None?
      ensures !released ==> task == old(task)
    {
      if produced {
        files := files + {task.value.temporaryOutputFile.Path()};
      }
      var crashed := TranscodeVideoFile(output);
      if crashed {
        return false;
      }
      if truncated {
        HandleTruncatedResult();
      } else {
        released := HandleSuccessfulResult();
        if !released {
          return;
        }
      }
      task := None;
      released := true;
    }
  }
}
