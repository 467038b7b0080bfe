/** Scanning the loaded program, large files on a background thread (program_tracker.py, `ProgramScanner`): which
    file the landmarks belong to, for every interleaving of the status loop with scan threads. */
module ProgramScanner {
  /** Path, modification time and size; the path is empty while no program is loaded. */
  datatype Signature = Signature(path: string, modified: int, size: nat)

  const NOTHING := Signature("", 0, 0)

  /** The landmarks held: those of one version of one file, or blank ones under its path. */
  datatype Info = Blank(path: string) | Scanned(of: Signature)

  /** The scanner's fields, shared under its lock; `finished` is the event that `wait` waits for. */
  datatype Scanner = Scanner(info: Info, signature: Signature, finished: bool)

  const NEW := Scanner(Blank(""), NOTHING, true)

  function Unload(s: Scanner): Scanner { Scanner(Blank(""), NOTHING, true) }

  function Publish(s: Scanner, of: Signature): Scanner {
    if of != s.signature then s else s.(info := Scanned(of), finished := true)
  }

  /** The object, one method for each locked section. */
  class ProgramScanner {
    var info: Info
    var signature: Signature
    var finished: bool

    function Fields(): Scanner
      reads this
    {
      Scanner(info, signature, finished)
    }

    constructor ()
      ensures Fields() == NEW
    {
      info, signature, finished := Blank(""), NOTHING, true;
    }

    /** The first section of `load`: is there anything new, and does it go to the background? */
    method Begin(loaded: Signature, limit: nat) returns (scan: bool, background: bool)
      requires loaded.path != ""
      modifies this`signature
      ensures scan <==> loaded != old(signature)
      ensures Fields() == old(Fields()).(signature := loaded)
      ensures background <==> loaded.size > limit
    {
      background := loaded.size > limit;
      if loaded == signature {
        return false, background;
      }
      signature := loaded;
      return true, background;
    }

    method Background()
      modifies this`info, this`finished
      ensures Fields() == old(Fields()).(info := Blank(signature.path), finished := false)
    {
      info, finished := Blank(signature.path), false;
    }

    method EndScan(of: Signature)
      modifies this`info, this`finished
      ensures Fields() == Publish(old(Fields()), of)
    {
      if of != signature {
        return;
      }
      info, finished := Scanned(of), true;
    }

    method LoadNothing()
      modifies this
      ensures Fields() == if old(signature).path != "" then Unload(old(Fields())) else old(Fields())
    {
      if signature.path != "" {
        info, signature, finished := Blank(""), NOTHING, true;
      }
    }
  }

  // ------------------------------------------------------------------
  // The status loop and the scan threads
  // ------------------------------------------------------------------

  /** Where the status loop is: outside `load`, after its first locked section, between its second and the start of
      the thread, or scanning a small file itself. */
  datatype Loop = Outside | Noted(background: bool) | Starting | Inline

  /** `threads`: the signatures of the scans in flight. */
  datatype World = World(scanner: Scanner, loop: Loop, threads: multiset<Signature>)

  const FIRST := World(NEW, Outside, multiset{})

  datatype Action = Load(loaded: Signature) | Go | ThreadEnds(of: Signature)

  function Act(limit: nat, w: World, a: Action): World {
    match a
    case Load(loaded) =>
      if !w.loop.Outside? then w
      else if loaded.path == "" then
        if w.scanner.signature.path != "" then w.(scanner := Unload(w.scanner)) else w
      else if loaded == w.scanner.signature then w
      else w.(scanner := w.scanner.(signature := loaded), loop := Noted(loaded.size > limit))
    case Go =>
      (match w.loop
       case Outside => w
       case Noted(true) =>
         w.(scanner := w.scanner.(info := Blank(w.scanner.signature.path), finished := false), loop := Starting)
       case Noted(false) => w.(loop := Inline)
       case Starting => w.(threads := w.threads + multiset{w.scanner.signature}, loop := Outside)
       case Inline => w.(scanner := Publish(w.scanner, w.scanner.signature), loop := Outside))
    case ThreadEnds(of) =>
      if of !in w.threads then w
      else w.(scanner := Publish(w.scanner, of), threads := w.threads - multiset{of})
  }

  function ActAll(limit: nat, actions: seq<Action>): World {
    if actions == [] then FIRST else Act(limit, ActAll(limit, actions[..|actions| - 1]), actions[|actions| - 1])
  }

  /** The landmarks are those of the program loaded last, or there is none. */
  predicate Belongs(s: Scanner) {
    s.info == if s.signature == NOTHING then Blank("") else Scanned(s.signature)
  }

  predicate Inv(w: World) {
    && (w.scanner.signature.path == "" ==> w.scanner.signature == NOTHING)
    && (forall t :: t in w.threads ==> t.path != "")
    && (w.loop.Outside? || w.loop.Starting? ==> w.scanner.finished ==> Belongs(w.scanner))
    && (w.loop.Outside? && !w.scanner.finished ==> w.scanner.signature in w.threads)
    && (!w.loop.Outside? ==> w.scanner.signature.path != "")
    && (!w.scanner.finished && (w.loop.Outside? || w.loop.Starting?) ==>
          w.scanner.signature != NOTHING && w.scanner.info == Blank(w.scanner.signature.path))
  }

  lemma LoopKeeps(limit: nat, w: World, a: Action)
    requires Inv(w) && !a.ThreadEnds?
    ensures Inv(Act(limit, w, a))
  {
  }

  lemma ThreadKeeps(limit: nat, w: World, of: Signature)
    requires Inv(w)
    ensures Inv(Act(limit, w, ThreadEnds(of)))
  {
  }

  lemma StepKeeps(limit: nat, w: World, a: Action)
    requires Inv(w)
    ensures Inv(Act(limit, w, a))
  {
    if a.ThreadEnds? {
      ThreadKeeps(limit, w, a.of);
    } else {
      LoopKeeps(limit, w, a);
    }
  }

  lemma {:induction false} RunKeeps(limit: nat, actions: seq<Action>)
    ensures Inv(ActAll(limit, actions))
  {
    if actions != [] {
      RunKeeps(limit, actions[..|actions| - 1]);
      StepKeeps(limit, ActAll(limit, actions[..|actions| - 1]), actions[|actions| - 1]);
    }
  }

  /** Outside `load`, for every interleaving with threads ending late or out of order: either the landmarks belong to
      the program loaded last, or the scan is pending, they are blank under its path, and a thread that will publish
      it is in flight -- so a wait ends. */
  lemma InfoBelongs(limit: nat, actions: seq<Action>)
    ensures var w := ActAll(limit, actions);
            w.loop.Outside? ==>
              if w.scanner.finished then Belongs(w.scanner)
              else w.scanner.info == Blank(w.scanner.signature.path) && w.scanner.signature in w.threads
  {
    RunKeeps(limit, actions);
  }

  /** Inside `load` it may fail: after the signature is taken the old landmarks still look finished. */
  lemma NotInsideLoad(limit: nat, loaded: Signature)
    requires loaded.path != ""
    ensures var w := ActAll(limit, [Load(loaded)]); !w.loop.Outside? && w.scanner.finished && !Belongs(w.scanner)
  {
  }

  // ------------------------------------------------------------------
  // Loading, start to end
  // ------------------------------------------------------------------

  /** What the status loop loaded last: loads come one after the other, outside of each other. */
  function LastLoaded(limit: nat, actions: seq<Action>): Signature {
    if actions == [] then NOTHING else
      var init, a := actions[..|actions| - 1], actions[|actions| - 1];
      if a.Load? && ActAll(limit, init).loop.Outside? then if |a.loaded.path| > 0 then a.loaded else NOTHING
      else LastLoaded(limit, init)
  }

  /** The signature held is that of the program loaded last, whatever threads end late. */
  lemma {:induction false} SignatureIsLast(limit: nat, actions: seq<Action>)
    ensures ActAll(limit, actions).scanner.signature == LastLoaded(limit, actions)
  {
    if actions != [] {
      SignatureIsLast(limit, actions[..|actions| - 1]);
      RunKeeps(limit, actions[..|actions| - 1]);
    }
  }

  /** Loading a program that is not the one held: a small file is scanned before `load` returns; of a large one only a
      thread is started, and until that ends there are no landmarks. */
  lemma LoadsProgram(limit: nat, w: World, loaded: Signature)
    requires w.loop.Outside? && |loaded.path| > 0 && loaded != w.scanner.signature
    ensures var w1 := Act(limit, w, Load(loaded));
            var w2 := Act(limit, Act(limit, w1, Go), Go);
            && !w1.loop.Outside? && w2.loop.Outside? && w2.scanner.signature == loaded
            && (loaded.size <= limit ==>
                  w2.scanner.finished && w2.scanner.info == Scanned(loaded) && w2.threads == w.threads)
            && (loaded.size > limit ==>
                  && !w2.scanner.finished && w2.scanner.info == Blank(loaded.path)
                  && w2.threads == w.threads + multiset{loaded})
  {
  }

  /** Loading the program held again does nothing; with no program the landmarks are blank at once. */
  lemma LoadsNothingNew(limit: nat, w: World, loaded: Signature)
    requires w.loop.Outside? && (loaded == w.scanner.signature || loaded.path == "")
    requires Inv(w)
    ensures var w' := Act(limit, w, Load(loaded));
            && w'.loop.Outside? && w'.threads == w.threads
            && (|loaded.path| > 0 ==> w' == w)
            && (loaded.path == "" ==> w'.scanner.signature == NOTHING && w'.scanner.finished
                                      && w'.scanner.info == Blank(""))
  {
  }

  /** A scan in flight ends once; its landmarks are published exactly if its program is still the one loaded. */
  lemma ScanEnds(limit: nat, w: World, of: Signature)
    requires of in w.threads
    ensures var w' := Act(limit, w, ThreadEnds(of));
            && w'.threads[of] == w.threads[of] - 1 && (forall t :: t != of ==> w'.threads[t] == w.threads[t])
            && w'.loop == w.loop && w'.scanner.signature == w.scanner.signature
            && (of == w.scanner.signature ==> w'.scanner.finished && w'.scanner.info == Scanned(of))
            && (of != w.scanner.signature ==> w'.scanner == w.scanner)
  {
  }
}
