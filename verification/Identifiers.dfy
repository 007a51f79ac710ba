/** Which identifiers the store's redaction leaves alone. */
module Identifiers {
  import Redaction
  import opened Protocol
  import opened CommandSafety

  // ---- clean identifiers make a good configuration

  lemma ShortIsClean(s: string)
    requires |s| < 8
    ensures Redaction.Clean(s)
  {
    forall i | 0 <= i <= |s| ensures !Redaction.BearerHere(s[i..]) && !Redaction.SecretHere(s[i..]) {
      if Redaction.BearerHere(s[i..]) { Redaction.BearerLength(0, s[i..]); }
      if Redaction.KeyFrom(0, s[i..]) { KeyLength(0, s[i..]); }
      if Redaction.SentinelFrom(0, s[i..]) { SentinelLength(0, s[i..]); }
    }
  }

  lemma {:induction false} KeyLength(k: nat, s: string)
    requires k <= 9 && Redaction.KeyFrom(k, s)
    ensures |s| >= 9 - k
    decreases |s|
  {
    if k < 9 { KeyLength(k + 1, s[1..]); }
  }

  lemma {:induction false} SentinelLength(k: nat, s: string)
    requires k <= 10 && Redaction.SentinelFrom(k, s)
    ensures |s| >= 10 - k
    decreases |s|
  {
    if k < 10 { SentinelLength(k + 1, s[1..]); }
  }

  lemma DispatchIsClean()
    ensures Redaction.Clean("dispatch")
  {
    var s := "dispatch";
    forall i | 0 <= i <= |s| ensures !Redaction.BearerHere(s[i..]) && !Redaction.SecretHere(s[i..]) {
      if Redaction.BearerHere(s[i..]) { Redaction.BearerLength(0, s[i..]); }
      if Redaction.KeyFrom(0, s[i..]) { KeyLength(0, s[i..]); }
      if Redaction.SentinelFrom(0, s[i..]) { SentinelLength(0, s[i..]); }
    }
  }

  /** A dispatch key is left alone exactly when the run and the task are. */
  lemma KeyIsClean(cfg: Config, task: string)
    ensures Redaction.Clean(DispatchKey(cfg, task)) <==> Redaction.Clean(cfg.run) && Redaction.Clean(task)
  {
    DispatchIsClean();
    assert DispatchKey(cfg, task) == (cfg.run + ":" + task) + ":" + "dispatch";
    Redaction.JoinClean(cfg.run + ":" + task, "dispatch");
    Redaction.JoinClean(cfg.run, task);
  }

  lemma RetryKeyIsClean(cfg: Config, task: string, key: string)
    ensures Redaction.Clean(RetryKey(cfg, task, key)) <==>
              Redaction.Clean(cfg.run) && Redaction.Clean(task) && Redaction.Clean(key)
  {
    KeyIsClean(cfg, task);
    ShortIsClean("retry");
    assert RetryKey(cfg, task, key) == (DispatchKey(cfg, task) + ":" + "retry") + ":" + key;
    Redaction.JoinClean(DispatchKey(cfg, task) + ":" + "retry", key);
    Redaction.JoinClean(DispatchKey(cfg, task), "retry");
  }

  /** Everything proved of good configurations holds of runs with clean run and task ids. */
  lemma CleanPlansAreGood(cfg: Config)
    requires cfg.redact == Redaction.RedactString && cfg.bound > 0
    ensures GoodConfig(cfg) <==> (forall t | t in cfg.plan :: Redaction.Clean(cfg.run) && Redaction.Clean(t.id))
  {
    ShortIsClean("run");
    Redaction.FixedPointsAreClean("run");
    forall t | t in cfg.plan
      ensures Fixed(cfg, t.id) && Fixed(cfg, DispatchKey(cfg, t.id)) <==> Redaction.Clean(cfg.run) && Redaction.Clean(t.id)
    {
      Redaction.FixedPointsAreClean(t.id);
      Redaction.FixedPointsAreClean(DispatchKey(cfg, t.id));
      KeyIsClean(cfg, t.id);
    }
  }

  /** A control is within the proofs' reach exactly when its identifiers are clean. */
  lemma CleanControlsAreAdmissible(cfg: Config, kind: Kind, key: string, task: string, token: nat)
    requires cfg.redact == Redaction.RedactString && Redaction.Clean(cfg.run)
    requires kind != Dispatch && kind != DispatchRetry && key != ""
    ensures Admissible(cfg, ControlTask(kind, key, task, token)) <==> Redaction.Clean(key) && Redaction.Clean(task)
  {
    Redaction.FixedPointsAreClean(key);
    Redaction.FixedPointsAreClean(task);
    Redaction.FixedPointsAreClean(RetryKey(cfg, task, key));
    RetryKeyIsClean(cfg, task, key);
  }

  // ---- identifiers that are not clean

  lemma RedactTwice(s: string)
    ensures Redaction.RedactString(Redaction.RedactString(s)) == Redaction.RedactString(s)
    ensures s != "" ==> Redaction.RedactString(s) != ""
  {
    Redaction.RedactedStringIsClean(s);
    Redaction.FixedPointsAreClean(Redaction.RedactString(s));
    if s != "" { assert Redaction.ReplaceBearer(s) != ""; }
  }

  lemma ResearchHoldsAKey()
    ensures Redaction.SecretHere("sk-research")
  {
    Redaction.KeyMatches("sk-research");
  }

  /** An innocent name that holds a match of the secret pattern. */
  lemma ResearchIsMasked()
    ensures Redaction.RedactString("task-research") != "task-research"
  {
    var s := "task-research";
    assert s[2..] == "sk-research";
    ResearchHoldsAKey();
    Redaction.FixedPointsAreClean(s);
  }
}
