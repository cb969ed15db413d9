/** `Sources/ExecutorCore/Extensions.swift`: the VM name and the job image, both
    read from the environment GitLab hands to a custom executor. */
module Extensions {
  import opened Wrappers
  import opened Strings

  type Environment = map<string, string>

  const RunnerIDKey: string := "CUSTOM_ENV_CI_RUNNER_ID"
  const ProjectIDKey: string := "CUSTOM_ENV_CI_PROJECT_ID"
  const ConcurrentIDKey: string := "CUSTOM_ENV_CI_CONCURRENT_PROJECT_ID"
  const JobIDKey: string := "CUSTOM_ENV_CI_JOB_ID"
  const JobImageKey: string := "CUSTOM_ENV_CI_JOB_IMAGE"

  /** `environment[key]`. */
  function Lookup(env: Environment, key: string): Option<string>
  {
    if key in env then Some(env[key]) else None
  }

  /** `ProcessInfo.vmID`: `runner`, the project, `concurrent`, the concurrency
      slot, `job` and the job, joined by `-`, an absent value simply left out.
      The runner id is looked up but plays no part. */
  function VmID(env: Environment): (id: string)
    ensures |id| >= 6 && id[..6] == "runner"
  {
    var runnerID := Lookup(env, RunnerIDKey);
    var projectID := Lookup(env, ProjectIDKey);
    var concurrentID := Lookup(env, ConcurrentIDKey);
    var jobID := Lookup(env, JobIDKey);
    var parts := Compact([Some("runner"), projectID, Some("concurrent"), concurrentID, Some("job"), jobID]);
    assert parts[0] == "runner";
    JoinCons("runner", parts[1..], "-");
    assert parts == ["runner"] + parts[1..];
    Join(parts, "-")
  }

  /** `ProcessInfo.vmImage`: the job image, when the environment names one. */
  function VmImage(env: Environment): (image: Option<string>)
    ensures image.Some? <==> JobImageKey in env
    ensures image.Some? ==> image.value == env[JobImageKey]
  {
    Lookup(env, JobImageKey)
  }

  /** How an optional value shows up in the name: `-value`, or nothing. */
  function Segment(value: Option<string>): string
  {
    if value.Some? then "-" + value.value else ""
  }

  function Present(value: Option<string>): seq<string>
  {
    if value.Some? then [value.value] else []
  }

  /** A tag followed by an optional value and a non-empty rest joins as the
      tag, the value's segment, a dash and the rest. */
  lemma {:induction false} JoinLabelled(tag: string, value: Option<string>, rest: seq<string>)
    requires |rest| > 0
    ensures Join([tag] + Present(value) + rest, "-") == tag + Segment(value) + "-" + Join(rest, "-")
  {
    var tail := Join(rest, "-");
    if value.Some? {
      var v := value.value;
      calc {
        Join([tag] + Present(value) + rest, "-");
        { assert [tag] + Present(value) + rest == [tag] + ([v] + rest); }
        Join([tag] + ([v] + rest), "-");
        { JoinCons(v, rest, "-"); JoinCons(tag, [v] + rest, "-"); }
        tag + "-" + (v + "-" + tail);
        tag + Segment(value) + "-" + tail;
      }
    } else {
      calc {
        Join([tag] + Present(value) + rest, "-");
        { assert [tag] + Present(value) + rest == [tag] + rest; }
        Join([tag] + rest, "-");
        { JoinCons(tag, rest, "-"); }
        tag + "-" + tail;
        { assert tag + "" == tag; }
        tag + Segment(value) + "-" + tail;
      }
    }
  }

  /** The name in closed form: each absent value drops out together with its
      dash; nothing stands in for it. */
  lemma {:induction false} VmIDShape(env: Environment)
    ensures VmID(env) ==
      "runner" + Segment(Lookup(env, ProjectIDKey))
      + "-concurrent" + Segment(Lookup(env, ConcurrentIDKey))
      + "-job" + Segment(Lookup(env, JobIDKey))
  {
    var p, c, j := Lookup(env, ProjectIDKey), Lookup(env, ConcurrentIDKey), Lookup(env, JobIDKey);
    CompactLabelled("runner", p, "concurrent", c, "job", j);
    var tail := ["job"] + Present(j);
    assert Join(tail, "-") == "job" + Segment(j) by {
      JoinCons("job", Present(j), "-");
    }
    var middle := ["concurrent"] + Present(c) + tail;
    JoinLabelled("concurrent", c, tail);
    JoinLabelled("runner", p, middle);
    RegroupShape("runner", Segment(p), "-", "concurrent", Segment(c), "job", Segment(j));
    assert "-" + "concurrent" == "-concurrent" && "-" + "job" == "-job";
  }

  /** The six-entry list behind the name, compacted: each tag stays, each
      value only when present. */
  lemma {:induction false} CompactLabelled(a: string, p: Option<string>, b: string, c: Option<string>, d: string, j: Option<string>)
    ensures Compact([Some(a), p, Some(b), c, Some(d), j])
         == [a] + Present(p) + ([b] + Present(c) + ([d] + Present(j)))
  {
    CompactSix(Some(a), p, Some(b), c, Some(d), j);
    CompactOne(p);
    CompactOne(c);
    CompactOne(j);
    CompactAppend([Some(d)], [j]);
    CompactAppend([c], [Some(d)] + [j]);
    CompactAppend([Some(b)], [c] + ([Some(d)] + [j]));
    CompactAppend([p], [Some(b)] + ([c] + ([Some(d)] + [j])));
    CompactAppend([Some(a)], [p] + ([Some(b)] + ([c] + ([Some(d)] + [j]))));
  }

  /* Associativity steps, stated over variables so that the name's proofs do
     not regroup literal strings. */

  lemma {:induction false} RegroupShape(r: string, sp: string, dash: string, cc: string, sc: string, jb: string, sj: string)
    ensures r + sp + dash + (cc + sc + dash + (jb + sj)) == r + sp + (dash + cc) + sc + (dash + jb) + sj
  {
  }

  lemma {:induction false} RegroupPresent(r: string, dash: string, p: string, cc: string, c: string, jb: string, j: string)
    ensures r + (dash + p) + (dash + cc) + (dash + c) + (dash + jb) + (dash + j)
         == (r + dash) + p + (dash + cc + dash) + c + (dash + jb + dash) + j
  {
  }

  /** With all three values present the name is
      `runner-<project>-concurrent-<slot>-job-<job>`. */
  lemma {:induction false} VmIDAllPresent(env: Environment)
    requires ProjectIDKey in env && ConcurrentIDKey in env && JobIDKey in env
    ensures VmID(env) ==
      "runner-" + env[ProjectIDKey] + "-concurrent-" + env[ConcurrentIDKey] + "-job-" + env[JobIDKey]
  {
    VmIDShape(env);
    RegroupPresent("runner", "-", env[ProjectIDKey], "concurrent", env[ConcurrentIDKey], "job", env[JobIDKey]);
    assert "-" + "concurrent" == "-concurrent" && "-" + "job" == "-job";
    assert "runner" + "-" == "runner-" && "-concurrent" + "-" == "-concurrent-" && "-job" + "-" == "-job-";
  }

  /** The runner id has no influence on the name: setting or removing it leaves
      the name unchanged. */
  lemma {:induction false} VmIDIgnoresRunnerID(env: Environment, runnerID: string)
    ensures VmID(env[RunnerIDKey := runnerID]) == VmID(env)
    ensures VmID(env - {RunnerIDKey}) == VmID(env)
  {
    var set1, removed := env[RunnerIDKey := runnerID], env - {RunnerIDKey};
    assert Lookup(set1, ProjectIDKey) == Lookup(env, ProjectIDKey);
    assert Lookup(set1, ConcurrentIDKey) == Lookup(env, ConcurrentIDKey);
    assert Lookup(set1, JobIDKey) == Lookup(env, JobIDKey);
    assert Lookup(removed, ProjectIDKey) == Lookup(env, ProjectIDKey);
    assert Lookup(removed, ConcurrentIDKey) == Lookup(env, ConcurrentIDKey);
    assert Lookup(removed, JobIDKey) == Lookup(env, JobIDKey);
  }

  /** Two different environments can yield the same name: the values are
      joined without escaping, so a `-job-` inside the concurrency slot reads
      the same as one inside the job id. */
  lemma {:induction false} VmIDCanCollide()
    ensures
      var first := map[ProjectIDKey := "1", ConcurrentIDKey := "2-job-3", JobIDKey := "4"];
      var second := map[ProjectIDKey := "1", ConcurrentIDKey := "2", JobIDKey := "3-job-4"];
      first != second && VmID(first) == VmID(second)
  {
    var first := map[ProjectIDKey := "1", ConcurrentIDKey := "2-job-3", JobIDKey := "4"];
    var second := map[ProjectIDKey := "1", ConcurrentIDKey := "2", JobIDKey := "3-job-4"];
    assert first[ConcurrentIDKey] != second[ConcurrentIDKey];
    VmIDAllPresent(first);
    VmIDAllPresent(second);
    assert "-concurrent-" + "2-job-3" + "-job-" + "4" == "-concurrent-" + "2" + "-job-" + "3-job-4";
  }
}
