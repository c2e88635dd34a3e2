/** Publications of covers under the gate: each file-system call of each publication is one
    step, and the steps of all publications, of any number of works, interleave with those of
    the keyed lock they hold.  A call that fails ends its publication: the ticket releases. */
module CoverRuns {
  import K = KeyedLock
  import opened CoverFiles

  /** files: by the key of the work's stem; a key not in the map has none. */
  datatype Shop = Shop(lock: K.Locker, files: map<string, Files>, jobs: map<nat, Job>)

  datatype Step = Lock(step: K.Step) | Begin(t: nat, target: string, replace: bool) | Call(t: nat)

  function FilesOf(s: Shop, key: string): Files {
    if key in s.files then s.files[key] else {}
  }

  predicate Holds(s: Shop, t: nat) {
    t in s.lock.tickets && s.lock.tickets[t].phase == K.Holding
  }

  function KeyOf(s: Shop, t: nat): string
    requires t in s.lock.tickets
  {
    s.lock.tickets[t].key
  }

  ghost predicate Next(s: Shop, step: Step, s': Shop) {
    match step
    case Lock(l) => K.Next(s.lock, l, s'.lock) && s' == s.(lock := s'.lock)
    case Begin(t, target, replace) => Holds(s, t) && t !in s.jobs
      && s' == s.(jobs := s.jobs[t := Start(target, replace)])
    case Call(t) =>
      && Holds(s, t) && t in s.jobs
      && var (job, files) := Called(s.jobs[t], FilesOf(s, KeyOf(s, t)));
         s' == s.(jobs := s.jobs[t := job], files := s.files[KeyOf(s, t) := files])
  }

  // ----- what a publication knows while it holds the gate -----

  predicate JobSound(j: Job, files: Files) {
    && (if j.replace then j.at >= 4 else j.at <= 4 || j.at >= 9)
    && (!j.replace && j.at <= 4 ==> forall i :: 0 <= i < j.at ==> EXTENSIONS[i] !in files)
    && (5 <= j.at <= 9 ==> j.target in files)
    && (j.replace && 5 <= j.at <= 9 ==> forall i :: 0 <= i < j.at - 5 && EXTENSIONS[i] != j.target ==>
         EXTENSIONS[i] !in files)
  }

  ghost predicate Sound(s: Shop) {
    && K.Sound(s.lock)
    && (forall t :: t in s.jobs ==> t in s.lock.tickets && s.lock.tickets[t].phase !in {K.Waiting, K.Cancelled})
    && (forall t :: t in s.jobs && Holds(s, t) ==> JobSound(s.jobs[t], FilesOf(s, KeyOf(s, t))))
  }

  lemma CallSound(j: Job, files: Files)
    requires JobSound(j, files)
    ensures JobSound(Called(j, files).0, Called(j, files).1)
  {
  }

  /** A publication already under way is untouched by any step of the lock: it was not waiting. */
  lemma LockStepSound(s: Shop, l: K.Step, s': Shop)
    requires Sound(s) && K.Next(s.lock, l, s'.lock) && s' == s.(lock := s'.lock)
    ensures Sound(s')
  {
    hide K.Sound, K.Next, JobSound;
    K.StepSound(s.lock, l, s'.lock);
    forall t | t in s.jobs
      ensures t in s'.lock.tickets && s'.lock.tickets[t].phase !in {K.Waiting, K.Cancelled}
      ensures Holds(s', t) ==> Holds(s, t) && FilesOf(s', KeyOf(s', t)) == FilesOf(s, KeyOf(s, t))
    {
      K.TicketsProgress(s.lock, l, s'.lock, t);
    }
  }

  lemma CallStepSound(s: Shop, t: nat, s': Shop)
    requires Sound(s) && Next(s, Call(t), s')
    ensures Sound(s')
  {
    hide K.Sound, K.Next, JobSound, Called;
    CallSound(s.jobs[t], FilesOf(s, KeyOf(s, t)));
    forall u | u in s.jobs && Holds(s, u) && KeyOf(s, u) == KeyOf(s, t)
      ensures u == t
    {
      K.OneHolder(s.lock, u, t);
    }
  }

  lemma BeginStepSound(s: Shop, t: nat, target: string, replace: bool, s': Shop)
    requires Sound(s) && Next(s, Begin(t, target, replace), s')
    ensures Sound(s')
  {
    hide K.Sound, K.Next;
    assert JobSound(s'.jobs[t], FilesOf(s, KeyOf(s, t)));
    hide JobSound;
  }

  lemma StepSound(s: Shop, step: Step, s': Shop)
    requires Sound(s) && Next(s, step, s')
    ensures Sound(s')
  {
    hide Sound;
    match step {
      case Lock(l) => LockStepSound(s, l, s');
      case Begin(t, target, replace) => BeginStepSound(s, t, target, replace, s');
      case Call(t) => CallStepSound(s, t, s');
    }
  }

  ghost predicate Run(ss: seq<Shop>, steps: seq<Step>) {
    && |ss| == |steps| + 1 && ss[0].lock == K.EMPTY && ss[0].jobs == map[]
    && forall i :: 0 <= i < |steps| ==> Next(ss[i], steps[i], ss[i + 1])
  }

  lemma {:induction false} RunSound(ss: seq<Shop>, steps: seq<Step>, k: nat)
    requires Run(ss, steps) && k <= |steps|
    ensures Sound(ss[k])
  {
    if k == 0 {
      assert K.Run([K.EMPTY], []);
      K.RunSound([K.EMPTY], [], 0);
    } else {
      RunSound(ss, steps, k - 1);
      StepSound(ss[k - 1], steps[k - 1], ss[k]);
    }
  }

  // ----- a publication alone under the gate -----

  /** How often a publication is called from one step up to another. */
  function CallsOf(steps: seq<Step>, t: nat, from: nat, upto: nat): nat
    requires upto <= |steps|
  {
    if upto <= from then 0 else CallsOf(steps, t, from, upto - 1) + if steps[upto - 1] == Call(t) then 1 else 0
  }

  function View(s: Shop, t: nat): (Job, Files)
    requires t in s.jobs && t in s.lock.tickets
  {
    (s.jobs[t], FilesOf(s, KeyOf(s, t)))
  }

  lemma BeginView(s: Shop, t: nat, target: string, replace: bool, s': Shop)
    requires Next(s, Begin(t, target, replace), s')
    ensures Holds(s, t) && t in s'.jobs && t in s'.lock.tickets
    ensures View(s', t) == (Start(target, replace), FilesOf(s, KeyOf(s, t)))
  {
  }

  /** No step but its own calls changes a publication that holds the gate, or its files. */
  lemma StepViews(s: Shop, step: Step, s': Shop, t: nat)
    requires Sound(s) && Next(s, step, s') && t in s.jobs && Holds(s', t)
    ensures Holds(s, t) && t in s'.jobs
    ensures View(s', t) == if step == Call(t) then Called(View(s, t).0, View(s, t).1) else View(s, t)
  {
    hide Called, JobSound, K.Next, K.Sound;
    match step {
      case Lock(l) =>
        K.TicketsProgress(s.lock, l, s'.lock, t);
      case Begin(_, _, _) =>
      case Call(u) =>
        if KeyOf(s, u) == KeyOf(s, t) {
          K.OneHolder(s.lock, u, t);
        }
    }
  }

  lemma {:induction false} JobStays(ss: seq<Shop>, steps: seq<Step>, i: nat, k: nat, t: nat)
    requires Run(ss, steps) && i < k <= |steps| && steps[i].Begin? && steps[i].t == t
    ensures t in ss[k].jobs
    decreases k
  {
    assert Next(ss[k - 1], steps[k - 1], ss[k]);
    if i + 1 < k {
      JobStays(ss, steps, i, k - 1, t);
    }
  }

  lemma RunStep(ss: seq<Shop>, steps: seq<Step>, k: nat)
    requires Run(ss, steps) && k < |steps|
    ensures |ss| == |steps| + 1 && Sound(ss[k]) && Next(ss[k], steps[k], ss[k + 1])
  {
    RunSound(ss, steps, k);
  }

  /** While a publication holds the gate, its files go through the states that its calls one
      after the other make, whatever steps of others lie between them. */
  lemma {:induction false} RunsAlone(ss: seq<Shop>, steps: seq<Step>, i: nat, k: nat, t: nat, target: string,
      replace: bool)
    requires Run(ss, steps) && i < k <= |steps| && steps[i] == Begin(t, target, replace) && Holds(ss[k], t)
    ensures Holds(ss[i], t) && t in ss[k].jobs
    ensures View(ss[k], t) ==
      After(Start(target, replace), FilesOf(ss[i], KeyOf(ss[i], t)), CallsOf(steps, t, i + 1, k))
    decreases k
  {
    hide Run, Sound, Called, Next, Holds, View, FilesOf;
    RunStep(ss, steps, k - 1);
    if i + 1 == k {
      BeginView(ss[i], t, target, replace, ss[k]);
    } else {
      JobStays(ss, steps, i, k - 1, t);
      StepViews(ss[k - 1], steps[k - 1], ss[k], t);
      RunsAlone(ss, steps, i, k - 1, t, target, replace);
    }
  }

  // ----- what every interleaving guarantees -----

  /** Every publication names one of the extensions the program lists. */
  ghost predicate Listed(steps: seq<Step>) {
    forall i :: 0 <= i < |steps| && steps[i].Begin? ==> steps[i].target in EXTENSIONS
  }

  ghost predicate JobsListed(s: Shop) {
    forall t :: t in s.jobs ==> s.jobs[t].target in EXTENSIONS
  }

  /** No call takes a work's last cover: what it removes is not what it published. */
  lemma CallKeepsCover(j: Job, files: Files)
    requires JobSound(j, files) && j.target in EXTENSIONS && HasCover(files)
    ensures HasCover(Called(j, files).1)
  {
    if j.at < 5 {
      var ext :| ext in EXTENSIONS && ext in files;
      assert ext in Called(j, files).1;
    } else if j.at < 9 {
      assert j.target in Called(j, files).1;
    }
  }

  lemma StepKeepsCover(s: Shop, step: Step, s': Shop, key: string)
    requires Sound(s) && Next(s, step, s') && JobsListed(s) && HasCover(FilesOf(s, key))
    ensures HasCover(FilesOf(s', key))
  {
    if step.Call? && KeyOf(s, step.t) == key {
      CallKeepsCover(s.jobs[step.t], FilesOf(s, key));
    }
    hide HasCover, K.Next, K.Sound, JobSound, Called;
  }

  /** Whatever publications of a work follow one another, replacing or not, under any
      interleaving and wherever each of them fails: once the work has a cover, a reader
      finds one at every step from then on. */
  lemma {:induction false} NeverWithoutCover(ss: seq<Shop>, steps: seq<Step>, key: string, i: nat, k: nat)
    requires Run(ss, steps) && Listed(steps) && i <= k <= |steps| && HasCover(FilesOf(ss[i], key))
    ensures HasCover(FilesOf(ss[k], key))
    decreases k
  {
    hide HasCover, Sound, JobsListed, Next, FilesOf;
    if i < k {
      NeverWithoutCover(ss, steps, key, i, k - 1);
      RunSound(ss, steps, k - 1);
      JobsStayListed(ss, steps, k - 1);
      assert Next(ss[k - 1], steps[k - 1], ss[k]);
      hide Run, Listed;
      StepKeepsCover(ss[k - 1], steps[k - 1], ss[k], key);
    }
  }

  lemma {:induction false} JobsStayListed(ss: seq<Shop>, steps: seq<Step>, k: nat)
    requires Run(ss, steps) && Listed(steps) && k <= |steps|
    ensures JobsListed(ss[k])
  {
    if k > 0 {
      JobsStayListed(ss, steps, k - 1);
      assert Next(ss[k - 1], steps[k - 1], ss[k]);
    }
  }

  lemma CallKeepsExisting(j: Job, files: Files)
    requires JobSound(j, files) && !j.replace && HasCover(files)
    ensures Called(j, files).1 == files
  {
    var ext :| ext in EXTENSIONS && ext in files;
    var i :| 0 <= i < |EXTENSIONS| && EXTENSIONS[i] == ext;
  }

  /** A publication that does not replace leaves a work with a cover alone. */
  lemma KeepsExisting(ss: seq<Shop>, steps: seq<Step>, k: nat, t: nat)
    requires Run(ss, steps) && k < |steps| && steps[k] == Call(t) && t in ss[k].jobs && !ss[k].jobs[t].replace
    requires t in ss[k].lock.tickets && HasCover(FilesOf(ss[k], KeyOf(ss[k], t)))
    ensures forall key :: FilesOf(ss[k + 1], key) == FilesOf(ss[k], key)
  {
    RunSound(ss, steps, k);
    assert Next(ss[k], steps[k], ss[k + 1]);
    hide Run;
    CallKeepsExisting(ss[k].jobs[t], FilesOf(ss[k], KeyOf(ss[k], t)));
    hide JobSound, Called, K.Sound, HasCover;
  }

  /** A replacement that went through leaves exactly its target among the listed covers for
      as long as it holds the gate. */
  lemma ReplacedWhileHeld(ss: seq<Shop>, steps: seq<Step>, k: nat, t: nat)
    requires Run(ss, steps) && k <= |steps| && t in ss[k].jobs && Holds(ss[k], t) && ss[k].jobs[t].replace
      && ss[k].jobs[t].at == 9
    ensures var files := FilesOf(ss[k], KeyOf(ss[k], t));
            ss[k].jobs[t].target in files
              && forall ext :: ext in EXTENSIONS && ext in files ==> ext == ss[k].jobs[t].target
  {
    RunSound(ss, steps, k);
    var j, files := ss[k].jobs[t], FilesOf(ss[k], KeyOf(ss[k], t));
    forall ext | ext in EXTENSIONS && ext in files
      ensures ext == j.target
    {
      var i :| 0 <= i < |EXTENSIONS| && EXTENSIONS[i] == ext;
    }
  }
}
