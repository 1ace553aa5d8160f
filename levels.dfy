/** The logger's level table (`Write.log_levels`) and what is derived from it:
    lookup by name, the pad width, the upper-cased names registered with the
    logging library, the colour map and the per-level dispatch table. */
module Levels {
  import opened Text

  /** One entry of the table: its numeric rank, its colour name and the
      optional 'terminate' key; an absent key reads as false. */
  datatype Level = Level(name: string, rank: int, color: string, terminate: Option<bool>)

  /** The table as the class defines it, in its order. */
  function DefaultLevels(): seq<Level>
  {
    [ Level("trace", 5, "cyan", Some(false)),
      Level("debug", 10, "blue", Some(false)),
      Level("info", 20, "green", Some(false)),
      Level("warn", 30, "yellow", Some(false)),
      Level("error", 40, "red", Some(false)),
      Level("fatal", 50, "thin_red", Some(true)),
      Level("help", 60, "purple", Some(false)) ]
  }

  function Names(ls: seq<Level>): set<string>
  {
    set i | 0 <= i < |ls| :: ls[i].name
  }

  /** A dictionary's keys are distinct, and `max` over them needs at least one. */
  predicate WellFormed(ls: seq<Level>)
  {
    |ls| > 0 && forall i, j :: 0 <= i < j < |ls| ==> ls[i].name != ls[j].name
  }

  function Ranks(ls: seq<Level>): set<int>
  {
    set i | 0 <= i < |ls| :: ls[i].rank
  }

  function UpperNames(ls: seq<Level>): set<string>
  {
    set i | 0 <= i < |ls| :: Upper(ls[i].name)
  }

  predicate DistinctRanks(ls: seq<Level>)
  {
    forall i, j :: 0 <= i < j < |ls| ==> ls[i].rank != ls[j].rank
  }

  /** `log_levels[name]`; `None` is the KeyError of an unknown name. */
  function Find(ls: seq<Level>, name: string): (r: Option<Level>)
    ensures r.Some? <==> name in Names(ls)
    ensures r.Some? ==> r.value.name == name && r.value in ls
  {
    if ls == [] then None
    else if ls[0].name == name then Some(ls[0])
    else
      var r := Find(ls[1..], name);
      assert Names(ls) == {ls[0].name} + Names(ls[1..]) by {
        forall n | n in Names(ls) ensures n in {ls[0].name} + Names(ls[1..]) {
          var i :| 0 <= i < |ls| && ls[i].name == n;
          if i > 0 { assert ls[1..][i - 1].name == n; }
        }
      }
      r
  }

  lemma FindAt(ls: seq<Level>, i: nat)
    requires WellFormed(ls) && i < |ls|
    ensures Find(ls, ls[i].name) == Some(ls[i])
  {
    var r := Find(ls, ls[i].name);
    var j :| 0 <= j < |ls| && ls[j] == r.value;
    assert ls[j].name == ls[i].name;
  }

  function RankOf(ls: seq<Level>, name: string): int
    requires name in Names(ls)
  {
    Find(ls, name).value.rank
  }

  /** `level_params.get('terminate', False)` */
  function Terminates(l: Level): bool
  {
    match l.terminate
    case Some(b) => b
    case None => false
  }

  /** `max(len(level) for level in log_levels)`: the width every level name is
      padded to. */
  function MaxNameLength(ls: seq<Level>): (m: nat)
    requires |ls| > 0
    ensures forall i :: 0 <= i < |ls| ==> |ls[i].name| <= m
    ensures exists i :: 0 <= i < |ls| && |ls[i].name| == m
  {
    if |ls| == 1 then |ls[0].name|
    else
      var rest := MaxNameLength(ls[1..]);
      assert forall i :: 1 <= i < |ls| ==> ls[i] == ls[1..][i - 1];
      if |ls[0].name| >= rest then |ls[0].name| else rest
  }

  /** Every upper-cased level name, padded as the derived templates pad it,
      takes exactly the same width: the columns of the log line line up and no
      name is cut short. */
  lemma AlignedLevelNames(ls: seq<Level>, i: nat)
    requires |ls| > 0 && i < |ls|
    ensures |Pad(Upper(ls[i].name), true, MaxNameLength(ls))| == MaxNameLength(ls)
    ensures Pad(Upper(ls[i].name), true, MaxNameLength(ls))[..|ls[i].name|] == Upper(ls[i].name)
  {
    PadLeftAligned(Upper(ls[i].name), MaxNameLength(ls));
  }

  lemma DefaultWellFormed()
    ensures WellFormed(DefaultLevels()) && DistinctRanks(DefaultLevels())
  {
  }

  /** The names of the default table. */
  lemma DefaultNames()
    ensures Names(DefaultLevels()) == {"trace", "debug", "info", "warn", "error", "fatal", "help"}
  {
    var ls := DefaultLevels();
    assert ls[0].name == "trace" && ls[1].name == "debug" && ls[2].name == "info" && ls[3].name == "warn";
    assert ls[4].name == "error" && ls[5].name == "fatal" && ls[6].name == "help";
  }

  /** The longest default name has five letters ("trace", "debug", "error",
      "fatal"). */
  lemma DefaultMaxNameLength()
    ensures MaxNameLength(DefaultLevels()) == 5
  {
    var ls := DefaultLevels();
    assert |ls[0].name| == 5;
    assert forall i :: 0 <= i < |ls| ==> |ls[i].name| <= 5;
  }

  /** The per-level callables `setup_log_methods` binds: one entry per name,
      holding the terminate flag read when it was bound. A later entry with the
      same name replaces an earlier one, as `setattr` does. */
  function DispatchTable(ls: seq<Level>): map<string, bool>
  {
    if ls == [] then map[]
    else DispatchTable(ls[..|ls| - 1])[ls[|ls| - 1].name := Terminates(ls[|ls| - 1])]
  }

  /** There is a callable for exactly the registered names, and each carries its
      own level's terminate flag. */
  lemma {:induction false} DispatchTableSpec(ls: seq<Level>)
    requires forall i, j :: 0 <= i < j < |ls| ==> ls[i].name != ls[j].name
    ensures DispatchTable(ls).Keys == Names(ls)
    ensures forall i :: 0 <= i < |ls| ==> DispatchTable(ls)[ls[i].name] == Terminates(ls[i])
  {
    if ls != [] {
      var init := ls[..|ls| - 1];
      DispatchTableSpec(init);
      assert Names(ls) == Names(init) + {ls[|ls| - 1].name} by {
        forall n | n in Names(ls) ensures n in Names(init) + {ls[|ls| - 1].name} {
          var i :| 0 <= i < |ls| && ls[i].name == n;
          if i < |ls| - 1 { assert init[i].name == n; }
        }
      }
      forall i | 0 <= i < |ls| ensures DispatchTable(ls)[ls[i].name] == Terminates(ls[i]) {
        if i < |ls| - 1 {
          assert init[i] == ls[i];
        }
      }
    }
  }

  /** In the default table only 'fatal' ends the process. */
  lemma DefaultOnlyFatalTerminates(name: string)
    requires name in Names(DefaultLevels())
    ensures name in DispatchTable(DefaultLevels())
    ensures DispatchTable(DefaultLevels())[name] <==> name == "fatal"
  {
    var ls := DefaultLevels();
    DefaultWellFormed();
    DispatchTableSpec(ls);
    var i :| 0 <= i < |ls| && ls[i].name == name;
  }

  /** The effect of `logging.addLevelName(rank, name.upper())` for every entry
      in order, on the library's rank-to-name table. */
  function RegisterNames(m: map<int, string>, ls: seq<Level>): map<int, string>
  {
    if ls == [] then m
    else RegisterNames(m, ls[..|ls| - 1])[ls[|ls| - 1].rank := Upper(ls[|ls| - 1].name)]
  }

  /** After registration every rank of the table is known, ranks outside it keep
      their old names, and with distinct ranks each rank shows its own level's
      upper-cased name. */
  lemma {:induction false} RegisterNamesSpec(m: map<int, string>, ls: seq<Level>)
    ensures RegisterNames(m, ls).Keys == m.Keys + Ranks(ls)
    ensures forall r :: r in m && (forall i :: 0 <= i < |ls| ==> ls[i].rank != r) ==>
              RegisterNames(m, ls)[r] == m[r]
    ensures DistinctRanks(ls) ==>
              forall i :: 0 <= i < |ls| ==> RegisterNames(m, ls)[ls[i].rank] == Upper(ls[i].name)
  {
    if ls != [] {
      var init := ls[..|ls| - 1];
      RegisterNamesSpec(m, init);
      assert Ranks(ls) == Ranks(init) + {ls[|ls| - 1].rank} by {
        forall r | r in Ranks(ls) ensures r in Ranks(init) + {ls[|ls| - 1].rank} {
          var i :| 0 <= i < |ls| && ls[i].rank == r;
          if i < |ls| - 1 { assert init[i].rank == r; }
        }
      }
      forall r | r in m && (forall i :: 0 <= i < |ls| ==> ls[i].rank != r)
        ensures RegisterNames(m, ls)[r] == m[r]
      {
        assert forall i :: 0 <= i < |init| ==> init[i] == ls[i];
      }
      if DistinctRanks(ls) {
        forall i | 0 <= i < |ls| ensures RegisterNames(m, ls)[ls[i].rank] == Upper(ls[i].name) {
          if i < |ls| - 1 {
            assert init[i] == ls[i];
          }
        }
      }
    }
  }

  /** The `log_colors` argument: upper-cased level name to colour name. A later
      entry whose upper-cased name collides replaces an earlier one. */
  function ColorMap(ls: seq<Level>): map<string, string>
  {
    if ls == [] then map[]
    else ColorMap(ls[..|ls| - 1])[Upper(ls[|ls| - 1].name) := ls[|ls| - 1].color]
  }

  /** An entry whose upper-cased name no later entry repeats keeps its own
      colour in the map. */
  lemma {:induction false} ColorMapAt(ls: seq<Level>, i: nat)
    requires i < |ls|
    requires forall j :: i < j < |ls| ==> Upper(ls[j].name) != Upper(ls[i].name)
    ensures Upper(ls[i].name) in ColorMap(ls) && ColorMap(ls)[Upper(ls[i].name)] == ls[i].color
  {
    if i < |ls| - 1 {
      var init := ls[..|ls| - 1];
      assert init[i] == ls[i];
      ColorMapAt(init, i);
    }
  }

  /** The colour map's keys are exactly the upper-cased level names. */
  lemma {:induction false} ColorMapKeys(ls: seq<Level>)
    ensures ColorMap(ls).Keys == UpperNames(ls)
  {
    if ls != [] {
      var init := ls[..|ls| - 1];
      ColorMapKeys(init);
      assert UpperNames(ls) == UpperNames(init) + {Upper(ls[|ls| - 1].name)} by {
        forall n | n in UpperNames(ls) ensures n in UpperNames(init) + {Upper(ls[|ls| - 1].name)} {
          var i :| 0 <= i < |ls| && Upper(ls[i].name) == n;
          if i < |ls| - 1 { assert init[i] == ls[i]; }
        }
      }
    }
  }

  /** The rank the root logger passes down while nobody configured it. */
  const RootLevel := 30

  /** The threshold a logger set to `level` applies: its own, or the root
      logger's while its own is NOTSET (0). */
  function Effective(level: int): (r: int)
    ensures level != 0 ==> r == level
    ensures r != 0
  {
    if level == 0 then RootLevel else level
  }

  /** The library-wide `manager.disable` level while nobody calls
      `logging.disable`: records of this rank or below are dropped before
      any logger looks at its own threshold. */
  const DisableLevel := 0

  /** `Logger.isEnabledFor(rank)` for a logger set to `level`: the rank is
      above the disable level and reaches the effective threshold. */
  predicate Enabled(rank: int, level: int)
  {
    rank > DisableLevel && rank >= Effective(level)
  }

  /** The names a call never gets written for once the 'write' logger is set
      to `threshold`: those the logger does not enable, i.e. those ranked
      below the threshold it applies (the root's while the threshold's rank
      is NOTSET) and those at or below the disable level (0). The stream
      handler's own NOTSET threshold lets every enabled record through. */
  function Suppressed(ls: seq<Level>, threshold: string): set<string>
    requires threshold in Names(ls)
  {
    set i | 0 <= i < |ls| && !Enabled(ls[i].rank, RankOf(ls, threshold)) :: ls[i].name
  }

  /** Raising a threshold whose rank is not NOTSET never lets a silenced
      level through again. (A NOTSET threshold filters at the root's rank,
      so raising it to a low rank lets more through.) */
  lemma SuppressedMonotone(ls: seq<Level>, low: string, high: string)
    requires low in Names(ls) && high in Names(ls)
    requires RankOf(ls, low) != 0 && RankOf(ls, low) <= RankOf(ls, high)
    ensures Suppressed(ls, low) <= Suppressed(ls, high)
  {
    assert Effective(RankOf(ls, low)) <= Effective(RankOf(ls, high));
  }

  /** A level is silenced by a threshold exactly when it ranks below the
      rank the logger applies for that threshold, or at or below zero. */
  lemma {:induction false} SuppressedSpec(ls: seq<Level>, k: nat, i: nat)
    requires WellFormed(ls) && k < |ls| && i < |ls|
    ensures ls[i].name in Suppressed(ls, ls[k].name) <==> ls[i].rank < Effective(ls[k].rank) || ls[i].rank <= 0
  {
    FindAt(ls, k);
    if ls[i].name in Suppressed(ls, ls[k].name) {
      var j :| 0 <= j < |ls| && !Enabled(ls[j].rank, ls[k].rank) && ls[j].name == ls[i].name;
      assert i == j;
    }
  }

  /** A threshold of rank NOTSET (0) filters at the root's rank: in a table
      of a rank-0 'quiet' and a rank-20 'info', 'quiet' silences both. */
  lemma NotsetThresholdUsesRoot()
    ensures var ls := [Level("quiet", 0, "", None), Level("info", 20, "", None)];
      "quiet" in Names(ls) && Suppressed(ls, "quiet") == {"quiet", "info"}
  {
    var ls := [Level("quiet", 0, "", None), Level("info", 20, "", None)];
    assert ls[0].name == "quiet" && ls[1].name == "info";
    SuppressedSpec(ls, 0, 0);
    SuppressedSpec(ls, 0, 1);
    assert Suppressed(ls, "quiet") <= {"quiet", "info"} by {
      forall n | n in Suppressed(ls, "quiet") ensures n in {"quiet", "info"} {
        var i :| 0 <= i < |ls| && ls[i].name == n;
      }
    }
  }

  /** A negative threshold still silences a rank-0 level: in a table of a
      rank -5 'neg' and a rank-0 'zero', 'neg' silences both. */
  lemma NegativeThresholdDropsZero()
    ensures var ls := [Level("neg", -5, "", None), Level("zero", 0, "", None)];
      "neg" in Names(ls) && Suppressed(ls, "neg") == {"neg", "zero"}
  {
    var ls := [Level("neg", -5, "", None), Level("zero", 0, "", None)];
    assert ls[0].name == "neg" && ls[1].name == "zero";
    SuppressedSpec(ls, 0, 0);
    SuppressedSpec(ls, 0, 1);
    assert Suppressed(ls, "neg") <= {"neg", "zero"} by {
      forall n | n in Suppressed(ls, "neg") ensures n in {"neg", "zero"} {
        var i :| 0 <= i < |ls| && ls[i].name == n;
      }
    }
  }

  /** With the default table, 'debug' silences only 'trace'. */
  lemma DefaultSuppressedByDebug()
    ensures "debug" in Names(DefaultLevels()) && Suppressed(DefaultLevels(), "debug") == {"trace"}
  {
    var ls := DefaultLevels();
    DefaultWellFormed();
    var s := Suppressed(ls, ls[1].name);
    assert s <= {ls[0].name} by {
      forall n | n in s ensures n == ls[0].name {
        var i :| 0 <= i < |ls| && ls[i].name == n;
        SuppressedSpec(ls, 1, i);
      }
    }
    assert ls[0].name in s by {
      SuppressedSpec(ls, 1, 0);
    }
  }

  /** Ranks strictly increase along the table. */
  predicate Ascending(ls: seq<Level>)
  {
    forall i, j :: 0 <= i < j < |ls| ==> ls[i].rank < ls[j].rank
  }

  lemma DefaultAscending()
    ensures Ascending(DefaultLevels())
  {
  }

  /** In a table ordered by rank, a threshold of positive rank silences
      exactly the levels declared before it. */
  lemma SuppressedAscending(ls: seq<Level>, k: nat)
    requires WellFormed(ls) && Ascending(ls) && k < |ls| && ls[k].rank > 0
    ensures Suppressed(ls, ls[k].name) == Names(ls[..k])
  {
    FindAt(ls, k);
    forall n | n in Suppressed(ls, ls[k].name) ensures n in Names(ls[..k]) {
      var i :| 0 <= i < |ls| && !Enabled(ls[i].rank, ls[k].rank) && ls[i].name == n;
      assert ls[..k][i] == ls[i];
    }
    forall n | n in Names(ls[..k]) ensures n in Suppressed(ls, ls[k].name) {
      var i :| 0 <= i < k && ls[..k][i].name == n;
      assert ls[i].rank < ls[k].rank;
    }
  }

  /** With the default table, 'error' silences 'trace', 'debug', 'info' and
      'warn'. */
  lemma DefaultSuppressedByError()
    ensures "error" in Names(DefaultLevels())
    ensures Suppressed(DefaultLevels(), "error") == {"trace", "debug", "info", "warn"}
  {
    var ls := DefaultLevels();
    assert WellFormed(ls) && Ascending(ls) by { DefaultWellFormed(); DefaultAscending(); }
    assert ls[4].name == "error";
    SuppressedAscending(ls, 4);
    DefaultLowerNames(ls[..4]);
  }

  lemma DefaultLowerNames(pre: seq<Level>)
    requires pre == DefaultLevels()[..4]
    ensures Names(pre) == {"trace", "debug", "info", "warn"}
  {
    assert pre[0].name == "trace" && pre[1].name == "debug" && pre[2].name == "info" && pre[3].name == "warn";
  }
}
