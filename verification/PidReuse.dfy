/** A pid that is used again: the identifiers that calls make must be free, and here one is not. */
module PidReuse {
  import opened Records
  import opened NodeTables
  import opened SystemCalls
  import opened BeatRuns

  const STAMP := Stamp(0, 0, "")
  const BLANK5 := OnProc(CloneCall("5", "1", STAMP))
  const LOGIN5 := OnProc(LoginCall("5", "sh", "-1"))

  const BLANK_PROCESS := View([Process("5", " ", " ", "1", 1)], map[1 := 0], map[], map[], map[1 := Proc],
                              map["5" := 0], map[1 := []], map[], map[], [], 0)
  const LOGGED_IN := View([Process("5", "sh", " ", "1", 2)], map[2 := 0], map[], map[], map[2 := Proc], map["5" := 0],
                          map[2 := []], map[], map[], [], 0)
  const TWO_OF_PID5 := View([Process("5", "sh", " ", "1", 2), Process("5", " ", " ", "1", 1)], map[2 := 0, 1 := 1],
                            map[], map[], map[2 := Proc, 1 := Proc], map["5" := 1], map[2 := [], 1 := []],
                            map[], map[], [], 0)

  // A process with pid 5 is cloned, logs in and ends, and another one gets its pid; every call fits.

  lemma NothingYet()
    ensures Consistent(EMPTY_VIEW)
  {
  }

  lemma FirstBlank(hasher: Hasher)
    requires hasher("5" + " " + " ") == 1
    ensures Consistent(EMPTY_VIEW) && CallFits(hasher, EMPTY_VIEW, BLANK5)
    ensures AfterCall(hasher, EMPTY_VIEW, BLANK5) == BLANK_PROCESS && Consistent(BLANK_PROCESS)
  {
    NothingYet();
    CallExact(hasher, EMPTY_VIEW, BLANK5);
    var r := NewProcess(hasher, "5", " ", " ", "1");
    assert Registered(EMPTY_VIEW, "5", r) == BLANK_PROCESS.(fds := map[]);
  }

  lemma Rekeyed(hasher: Hasher)
    requires hasher("5" + "sh" + " ") == 2
    ensures Rekey(BLANK_PROCESS, 0, "sh", " ", 2) == LOGGED_IN
  {
    Only(1, 0);
    Only(1, Proc);
    var none: seq<int> := [];
    Only(1, none);
  }

  lemma Only<V>(k: int, x: V)
    ensures map[k := x] - {k} == map[]
  {
  }

  lemma FirstLogin(hasher: Hasher)
    requires hasher("5" + "sh" + " ") == 2 && Consistent(BLANK_PROCESS)
    ensures CallFits(hasher, BLANK_PROCESS, LOGIN5)
    ensures AfterCall(hasher, BLANK_PROCESS, LOGIN5) == LOGGED_IN && Consistent(LOGGED_IN)
  {
    Rekeyed(hasher);
    CallExact(hasher, BLANK_PROCESS, LOGIN5);
  }

  lemma SecondClone(r: Process)
    requires r == Process("5", " ", " ", "1", 1)
    ensures Keyed(LOGGED_IN) && PidsKnown(LOGGED_IN) && Room(LOGGED_IN, 1, Proc)
    ensures Cloned(LOGGED_IN, "5", r, STAMP) == TWO_OF_PID5
  {
    assert Registered(LOGGED_IN, "5", r) == TWO_OF_PID5.(fds := LOGGED_IN.fds);
  }

  lemma SecondBlank(hasher: Hasher)
    requires hasher("5" + " " + " ") == 1 && Consistent(LOGGED_IN)
    ensures CallFits(hasher, LOGGED_IN, BLANK5)
    ensures AfterCall(hasher, LOGGED_IN, BLANK5) == TWO_OF_PID5 && Consistent(TWO_OF_PID5)
  {
    CallExact(hasher, LOGGED_IN, BLANK5);
    SecondClone(NewProcess(hasher, "5", " ", " ", "1"));
  }

  /** When the process with pid 5 now executes something, the entry under its new identifier is that of
      another process. */
  predicate GoesAstray(v: View)
  {
    && "5" in v.pids && v.pids["5"] < |v.pool|
    && var w := Rekey(v, v.pids["5"], "ls", "a", 3);
       3 in w.procs && w.procs[3] < |w.pool| && w.pool[w.procs[3]].id != 3
  }

  /** The entry of the second process is lost to the first, and the next change of name moves the
      entry of the first instead, away from its identifier. */
  lemma LostToTheFirst(hasher: Hasher)
    requires hasher("5" + "sh" + " ") == 2 && Consistent(TWO_OF_PID5)
    ensures !CallFits(hasher, TWO_OF_PID5, LOGIN5)
    ensures var v := AfterCall(hasher, TWO_OF_PID5, LOGIN5); !Consistent(v) && GoesAstray(v)
  {
    CallExact(hasher, TWO_OF_PID5, LOGIN5);
  }

  /** The freshness of re-keyed identifiers is needed. A process is cloned and logs in, another one
      with its pid is cloned, and every call fits. When that one logs in with the same executable, its
      entry is lost, and when it then executes something, the entry of the first is moved away from
      its identifier. */
  lemma SameLoginTwice(hasher: Hasher)
    requires hasher("5" + " " + " ") == 1 && hasher("5" + "sh" + " ") == 2
    ensures Consistent(EMPTY_VIEW) && CallFits(hasher, EMPTY_VIEW, BLANK5)
    ensures AfterCall(hasher, EMPTY_VIEW, BLANK5) == BLANK_PROCESS && Consistent(BLANK_PROCESS)
    ensures CallFits(hasher, BLANK_PROCESS, LOGIN5)
    ensures AfterCall(hasher, BLANK_PROCESS, LOGIN5) == LOGGED_IN && Consistent(LOGGED_IN)
    ensures CallFits(hasher, LOGGED_IN, BLANK5)
    ensures AfterCall(hasher, LOGGED_IN, BLANK5) == TWO_OF_PID5 && Consistent(TWO_OF_PID5)
    ensures !CallFits(hasher, TWO_OF_PID5, LOGIN5)
    ensures var v := AfterCall(hasher, TWO_OF_PID5, LOGIN5); !Consistent(v) && GoesAstray(v)
  {
    FirstBlank(hasher);
    FirstLogin(hasher);
    SecondBlank(hasher);
    LostToTheFirst(hasher);
  }
}
