/** The escalation ladder for a wedged camera feed. */
module Watchdog {
  datatype Action = RestartMediamtx | RestartNvargus | Reboot

  /** `-inf` until the first action. */
  datatype Stamp = Never | At(t: real)

  /** A persisted number as it comes back from disk. */
  datatype Loaded = Missing | Corrupt | Number(value: real)
  /** A bad level counts as rung zero, whether or not Python takes it for true. */
  datatype LoadedLevel = BadLevel(truthy: bool) | Level(value: int)

  datatype Config = Config(
    failThreshold: nat, cooldown: real, ladder: seq<Action>, allowReboot: bool, dwells: map<Action, real>)

  /** The watchdog's fields. */
  datatype Dog = Dog(failures: nat, lastActionAt: Stamp, level: nat, actionCount: nat)

  predicate ConfigOk(c: Config) {
    c.ladder != []
  }

  function Min(a: int, b: int): int {
    if a <= b then a else b
  }

  function Top(c: Config): nat
    requires ConfigOk(c)
  {
    |c.ladder| - 1
  }

  /** The time an action is given before the next one. */
  function Dwell(c: Config, a: Action): real {
    if a in c.dwells then c.dwells[a] else c.cooldown
  }

  /** The gate in front of the current rung, read off the rung below. */
  function Required(c: Config, level: nat): real
    requires ConfigOk(c)
  {
    if level == 0 then c.cooldown else Dwell(c, c.ladder[Min(level - 1, Top(c))])
  }

  function Resolve(c: Config, level: nat): Action
    requires ConfigOk(c)
  {
    var a := c.ladder[Min(level, Top(c))];
    if a.Reboot? && !c.allowReboot then RestartNvargus else a
  }

  /** Debounced, and the gate is open; a clock that went back opens it too. */
  predicate Fires(c: Config, d: Dog, now: real)
    requires ConfigOk(c)
  {
    && d.failures >= c.failThreshold
    && (d.lastActionAt.Never? || now < d.lastActionAt.t || now - d.lastActionAt.t >= Required(c, d.level))
  }

  function Fired(c: Config, d: Dog, now: real): Dog
    requires ConfigOk(c)
  {
    Dog(0, At(now), Min(d.level + 1, Top(c)), d.actionCount + 1)
  }

  function RestoredLevel(c: Config, level: LoadedLevel): nat
    requires ConfigOk(c)
  {
    match level
    case BadLevel(_) => 0
    case Level(n) => if n < 0 then 0 else Min(n, Top(c))
  }

  function RestoredStamp(stamp: Loaded, now: real): Stamp {
    match stamp
    case Missing => Never
    case Corrupt => At(0.0)
    case Number(t) => At(if t > now + 60.0 then 0.0 else t)
  }

  /** What is written to the state file for a stamp. */
  function Saved(s: Stamp): Loaded {
    match s
    case Never => Missing
    case At(t) => Number(t)
  }

  class MediaMtxWatchdog {
    const config: Config
    var failures: nat
    var lastActionAt: Stamp
    var level: nat
    var actionCount: nat

    function Model(): Dog
      reads this
    {
      Dog(failures, lastActionAt, level, actionCount)
    }

    constructor (config: Config)
      ensures this.config == config && Model() == Dog(0, Never, 0, 0)
    {
      this.config := config;
      failures, lastActionAt, level, actionCount := 0, Never, 0, 0;
    }

    method OnCaptureOk() returns (recovered: bool)
      modifies this
      ensures Model() == old(Model()).(failures := 0, level := 0) && recovered == (old(level) != 0)
    {
      failures := 0;
      if level != 0 {
        level := 0;
        return true;
      }
      return false;
    }

    method OnCaptureFail()
      modifies this
      ensures Model() == old(Model()).(failures := old(failures) + 1)
    {
      failures := failures + 1;
    }

    /** `acts` tells whether an action is due; then `action` is the one. */
    method NextAction(now: real) returns (acts: bool, action: Action)
      requires ConfigOk(config)
      modifies this
      ensures acts == old(Fires(config, Model(), now))
      ensures acts <==>
                && old(failures) >= config.failThreshold
                && (old(lastActionAt) == Never || now < old(lastActionAt).t
                    || now - old(lastActionAt).t >= old(RequiredCooldown()))
      ensures acts ==> action == Resolve(config, old(level))
      ensures acts ==>
                var rung := config.ladder[if old(level) < |config.ladder| then old(level) else |config.ladder| - 1];
                action == if rung == Reboot && !config.allowReboot then RestartNvargus else rung
      ensures Model() == if acts then Fired(config, old(Model()), now) else old(Model())
    {
      action := RestartMediamtx;
      if failures < config.failThreshold {
        return false, action;
      }
      if lastActionAt.At? {
        var elapsed := now - lastActionAt.t;
        if elapsed < 0.0 {
          lastActionAt := At(now);
        } else if elapsed < RequiredCooldown() {
          return false, action;
        }
      }
      action := ResolveAction(level);
      lastActionAt := At(now);
      failures := 0;
      actionCount := actionCount + 1;
      level := Min(level + 1, |config.ladder| - 1);
      return true, action;
    }

    function RequiredCooldown(): (r: real)
      requires ConfigOk(config)
      reads this
      ensures r == Required(config, level)
      ensures level == 0 ==> r == config.cooldown
      ensures 0 < level <= |config.ladder| ==>
                var below := config.ladder[level - 1];
                r == if below in config.dwells then config.dwells[below] else config.cooldown
    {
      if level <= 0 then config.cooldown
      else
        var last := config.ladder[Min(level - 1, |config.ladder| - 1)];
        if last in config.dwells then config.dwells[last] else config.cooldown
    }

    function ResolveAction(level: nat): (a: Action)
      requires ConfigOk(config)
      ensures a == Resolve(config, level)
      ensures !config.allowReboot ==> !a.Reboot?
    {
      var action := config.ladder[Min(level, |config.ladder| - 1)];
      if action == Reboot && !config.allowReboot then RestartNvargus else action
    }

    /** What the caller persists. */
    function Snapshot(): (nat, Loaded)
      reads this
    {
      (level, Saved(lastActionAt))
    }

    method Restore(savedLevel: LoadedLevel, savedAt: Loaded, now: real)
      requires ConfigOk(config)
      modifies this
      ensures Model() == old(Model()).(level := RestoredLevel(config, savedLevel), lastActionAt := RestoredStamp(savedAt, now))
      ensures level == if savedLevel.BadLevel? || savedLevel.value < 0 then 0
                       else if savedLevel.value < |config.ladder| then savedLevel.value else |config.ladder| - 1
      ensures lastActionAt == if savedAt.Missing? then Never
                              else if savedAt.Number? && savedAt.value <= now + 60.0 then At(savedAt.value) else At(0.0)
    {
      level := 0;
      if savedLevel.Level? && savedLevel.value > 0 {
        level := Min(savedLevel.value, |config.ladder| - 1);
      }
      lastActionAt := Never;
      if !savedAt.Missing? {
        var restored := if savedAt.Corrupt? then 0.0 else savedAt.value;
        if restored > now + 60.0 {
          restored := 0.0;
        }
        lastActionAt := At(restored);
      }
    }
  }

  /** A saved ladder state of the past comes back as it was. */
  lemma RestoreUndoesSnapshot(c: Config, level: nat, stamp: Stamp, now: real)
    requires ConfigOk(c) && level <= Top(c) && (stamp.At? ==> stamp.t <= now)
    ensures RestoredLevel(c, Level(level)) == level && RestoredStamp(Saved(stamp), now) == stamp
  {
  }

  // ------------------------------------------------------ the default ladder

  /** The ladder and dwells used when the caller gives none. */
  function DefaultConfig(failThreshold: nat, cooldown: real, allowReboot: bool): Config {
    Config(failThreshold, cooldown,
           [RestartMediamtx, RestartMediamtx, RestartNvargus, RestartNvargus, Reboot], allowReboot,
           map[RestartMediamtx := 0.75 * cooldown, RestartNvargus := 2.5 * cooldown, Reboot := 2.5 * cooldown])
  }

  /** Whether, after a decision on rung `level` at `then`, every later decision
      keeps the dwell of the action just taken. */
  ghost predicate GateKeepsDwell(c: Config, level: nat)
    requires ConfigOk(c) && level <= Top(c)
  {
    forall d: Dog, then_: real, now: real ::
      d.level == Min(level + 1, Top(c)) && d.lastActionAt == At(then_) && then_ <= now && Fires(c, d, now)
      ==> now - then_ >= Dwell(c, Resolve(c, level))
  }

  /** The gate after a rung keeps the dwell of that rung's action exactly when
      the dwell it reads, that of the rung below the new level, is no shorter.
      On the top rung, which is left for itself, this compares two rungs. */
  lemma GateKeepsDwellExactly(c: Config, level: nat)
    requires ConfigOk(c) && level <= Top(c) && Required(c, Min(level + 1, Top(c))) >= 0.0
    ensures GateKeepsDwell(c, level) <==> Required(c, Min(level + 1, Top(c))) >= Dwell(c, Resolve(c, level))
  {
    var gate := Required(c, Min(level + 1, Top(c)));
    if GateKeepsDwell(c, level) {
      var d := Dog(c.failThreshold, At(0.0), Min(level + 1, Top(c)), 0);
      assert Fires(c, d, gate);
      assert gate - 0.0 >= Dwell(c, Resolve(c, level));
    }
  }

  /** On the default ladder it is so on every rung, with or without reboots. */
  lemma DefaultGatesKeepDwell(failThreshold: nat, cooldown: real, allowReboot: bool, level: nat)
    requires level <= 4
    ensures var c := DefaultConfig(failThreshold, cooldown, allowReboot);
            Required(c, Min(level + 1, Top(c))) == Dwell(c, Resolve(c, level))
  {
  }
}
