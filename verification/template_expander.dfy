/**
 * `expandTemplates` and `findUnexpandedTemplates`: replace each highlight that
 * is wholly a placeholder for a registry key by the key's locked text, and
 * list, in document order, the placeholder keys the registry does not hold.
 *
 * The source reads the module-level constant `LOCKED_TEMPLATES`; here the
 * registry is the parameter `reg`, so that every property is proved for any
 * registry with the stated shape. LockedExpansion instantiates `reg` with
 * LockedTemplates.Registry.
 */
module TemplateExpander {
  import opened Wrappers
  import opened Resume
  import opened Placeholder
  import opened LockedTemplates

  /**
   * The condition `LOCKED_TEMPLATES[key]`: the looked-up value is truthy.
   * Only the registry's own entries are modelled (see PrototypeLookup for
   * the members every JavaScript object inherits).
   */
  function Resolves(reg: map<string, string>, key: string): (r: bool)
    ensures r <==> key in reg && reg[key] != ""
  {
    key in reg && Truthy(Str(reg[key]))
  }

  /** When every value is non-empty, the truthiness test is plain membership. */
  lemma ResolvesIffMember(reg: map<string, string>)
    requires ValuesNonEmpty(reg)
    ensures forall key :: Resolves(reg, key) <==> key in reg
  {
  }

  /** The placeholder key of a bullet: only string bullets can match. */
  function BulletKey(b: Value): (r: Option<string>)
    ensures !b.Str? ==> r.None?
    ensures r.Some? ==> b == Str(Wrap(r.value)) && r.value != [] && SingleLine(r.value)
    ensures forall key :: key != [] && SingleLine(key) && b == Str(Wrap(key)) ==> r == Some(key)
  {
    if b.Str? then PlaceholderKey(b.s) else None
  }

  /** The callback given to `highlights.map`. */
  function ExpandBullet(reg: map<string, string>, b: Value): (r: Value)
    ensures BulletKey(b).Some? && Resolves(reg, BulletKey(b).value) ==> r == Str(reg[BulletKey(b).value])
    ensures BulletKey(b).None? || !Resolves(reg, BulletKey(b).value) ==> r == b
  {
    match b
    case Str(s) =>
      (match PlaceholderKey(s)
       case Some(key) => if Resolves(reg, key) then Str(reg[key]) else b
       case None => b)
    case _ => b
  }

  /** `highlights.map(...)`, element by element from the front. */
  function ExpandHighlights(reg: map<string, string>, bullets: seq<Value>): (r: seq<Value>)
    ensures |r| == |bullets|
    ensures forall i :: 0 <= i < |bullets| ==> r[i] == ExpandBullet(reg, bullets[i])
  {
    if bullets == [] then [] else [ExpandBullet(reg, bullets[0])] + ExpandHighlights(reg, bullets[1..])
  }

  /** `if (job.highlights_ref) delete job.highlights_ref`. */
  function StripRef(ref: Option<Value>): (r: Option<Value>)
    ensures r.None? <==> ref.None? || Truthy(ref.value)
    ensures r.Some? ==> r == ref
  {
    if ref.Some? && Truthy(ref.value) then None else ref
  }

  /** The body of the loop over `data.work`, for one job. */
  function ExpandJob(reg: map<string, string>, job: Job): (r: Job)
    ensures r.rest == job.rest
    ensures r.highlightsRef.None? <==> job.highlightsRef.None? || Truthy(job.highlightsRef.value)
    ensures r.highlightsRef.Some? ==> r.highlightsRef == job.highlightsRef
    ensures !job.highlights.Array? ==> r.highlights == job.highlights
    ensures job.highlights.Array? ==>
              && r.highlights.Array?
              && |r.highlights.items| == |job.highlights.items|
              && forall i :: 0 <= i < |job.highlights.items| ==>
                   r.highlights.items[i] == ExpandBullet(reg, job.highlights.items[i])
  {
    var highlights :=
      match job.highlights
      case Array(bullets) => Array(ExpandHighlights(reg, bullets))
      case other => other;
    Job(highlights, StripRef(job.highlightsRef), job.rest)
  }

  /** The loop over `data.work`, job by job from the front. */
  function ExpandJobs(reg: map<string, string>, jobs: seq<Job>): (r: seq<Job>)
    ensures |r| == |jobs|
    ensures forall i :: 0 <= i < |jobs| ==> r[i] == ExpandJob(reg, jobs[i])
  {
    if jobs == [] then [] else [ExpandJob(reg, jobs[0])] + ExpandJobs(reg, jobs[1..])
  }

  /** `expandTemplates`: the work list is rewritten when it is an array; nothing else changes. */
  function ExpandTemplates(reg: map<string, string>, d: Doc): (r: Doc)
    ensures r.rest == d.rest
    ensures !d.work.Array? ==> r == d
    ensures d.work.Array? ==>
              && r.work.Array?
              && |r.work.items| == |d.work.items|
              && forall i :: 0 <= i < |d.work.items| ==> r.work.items[i] == ExpandJob(reg, d.work.items[i])
  {
    match d.work
    case Array(jobs) => d.(work := Array(ExpandJobs(reg, jobs)))
    case _ => d
  }

  /** What the scanner records for one bullet: its key when it is a placeholder the registry cannot resolve. */
  function BulletUnresolved(reg: map<string, string>, b: Value): (r: seq<string>)
    ensures |r| <= 1
    ensures r != [] <==> BulletKey(b).Some? && !Resolves(reg, BulletKey(b).value)
    ensures r != [] ==> r[0] == BulletKey(b).value
  {
    match b
    case Str(s) =>
      (match PlaceholderKey(s)
       case Some(key) => if !Resolves(reg, key) then [key] else []
       case None => [])
    case _ => []
  }

  /** The inner scanner loop over one job's bullets. */
  function ScanBullets(reg: map<string, string>, bullets: seq<Value>): (r: seq<string>)
    ensures |r| <= |bullets|
    ensures forall k :: k in r ==> !Resolves(reg, k)
  {
    if bullets == [] then [] else BulletUnresolved(reg, bullets[0]) + ScanBullets(reg, bullets[1..])
  }

  /** The scanner's view of one job: nothing unless `highlights` is an array. */
  function ScanJob(reg: map<string, string>, job: Job): (r: seq<string>)
    ensures !job.highlights.Array? ==> r == []
    ensures job.highlights.Array? ==> |r| <= |job.highlights.items|
    ensures forall k :: k in r ==> !Resolves(reg, k)
  {
    if job.highlights.Array? then ScanBullets(reg, job.highlights.items) else []
  }

  /** The outer scanner loop over the jobs. */
  function ScanJobs(reg: map<string, string>, jobs: seq<Job>): (r: seq<string>)
    ensures forall k :: k in r ==> !Resolves(reg, k)
  {
    if jobs == [] then [] else ScanJob(reg, jobs[0]) + ScanJobs(reg, jobs[1..])
  }

  /** `findUnexpandedTemplates`, as a value: empty unless `work` is an array. */
  function UnexpandedTemplates(reg: map<string, string>, d: Doc): (r: seq<string>)
    ensures !d.work.Array? ==> r == []
    ensures forall k :: k in r ==> !Resolves(reg, k)
  {
    if d.work.Array? then ScanJobs(reg, d.work.items) else []
  }

  /** Mapping over a concatenation maps each part in turn. */
  lemma {:induction false} ExpandHighlightsAppend(reg: map<string, string>, xs: seq<Value>, ys: seq<Value>)
    ensures ExpandHighlights(reg, xs + ys) == ExpandHighlights(reg, xs) + ExpandHighlights(reg, ys)
  {
    if xs == [] {
      assert xs + ys == ys;
    } else {
      var zs := xs + ys;
      assert zs[0] == xs[0];
      assert zs[1..] == xs[1..] + ys;
      ExpandHighlightsAppend(reg, xs[1..], ys);
      calc {
        ExpandHighlights(reg, zs);
        [ExpandBullet(reg, xs[0])] + ExpandHighlights(reg, xs[1..] + ys);
        [ExpandBullet(reg, xs[0])] + (ExpandHighlights(reg, xs[1..]) + ExpandHighlights(reg, ys));
        ([ExpandBullet(reg, xs[0])] + ExpandHighlights(reg, xs[1..])) + ExpandHighlights(reg, ys);
      }
    }
  }

  /** Expanding a concatenation of jobs expands each part in turn. */
  lemma {:induction false} ExpandJobsAppend(reg: map<string, string>, xs: seq<Job>, ys: seq<Job>)
    ensures ExpandJobs(reg, xs + ys) == ExpandJobs(reg, xs) + ExpandJobs(reg, ys)
  {
    if xs == [] {
      assert xs + ys == ys;
    } else {
      var zs := xs + ys;
      assert zs[0] == xs[0];
      assert zs[1..] == xs[1..] + ys;
      ExpandJobsAppend(reg, xs[1..], ys);
      calc {
        ExpandJobs(reg, zs);
        [ExpandJob(reg, xs[0])] + ExpandJobs(reg, xs[1..] + ys);
        [ExpandJob(reg, xs[0])] + (ExpandJobs(reg, xs[1..]) + ExpandJobs(reg, ys));
        ([ExpandJob(reg, xs[0])] + ExpandJobs(reg, xs[1..])) + ExpandJobs(reg, ys);
      }
    }
  }

  /** Scanning a concatenation scans each part in turn. */
  lemma {:induction false} ScanBulletsAppend(reg: map<string, string>, xs: seq<Value>, ys: seq<Value>)
    ensures ScanBullets(reg, xs + ys) == ScanBullets(reg, xs) + ScanBullets(reg, ys)
  {
    if xs == [] {
      assert xs + ys == ys;
    } else {
      var zs := xs + ys;
      assert zs[0] == xs[0];
      assert zs[1..] == xs[1..] + ys;
      ScanBulletsAppend(reg, xs[1..], ys);
      calc {
        ScanBullets(reg, zs);
        BulletUnresolved(reg, xs[0]) + ScanBullets(reg, xs[1..] + ys);
        BulletUnresolved(reg, xs[0]) + (ScanBullets(reg, xs[1..]) + ScanBullets(reg, ys));
        (BulletUnresolved(reg, xs[0]) + ScanBullets(reg, xs[1..])) + ScanBullets(reg, ys);
      }
    }
  }

  /** Scanning a concatenation of jobs scans each part in turn. */
  lemma {:induction false} ScanJobsAppend(reg: map<string, string>, xs: seq<Job>, ys: seq<Job>)
    ensures ScanJobs(reg, xs + ys) == ScanJobs(reg, xs) + ScanJobs(reg, ys)
  {
    if xs == [] {
      assert xs + ys == ys;
    } else {
      var zs := xs + ys;
      assert zs[0] == xs[0];
      assert zs[1..] == xs[1..] + ys;
      ScanJobsAppend(reg, xs[1..], ys);
      calc {
        ScanJobs(reg, zs);
        ScanJob(reg, xs[0]) + ScanJobs(reg, xs[1..] + ys);
        ScanJob(reg, xs[0]) + (ScanJobs(reg, xs[1..]) + ScanJobs(reg, ys));
        (ScanJob(reg, xs[0]) + ScanJobs(reg, xs[1..])) + ScanJobs(reg, ys);
      }
    }
  }

  /**
   * A key is reported for a list of bullets exactly when some bullet is a
   * placeholder for it and the registry cannot resolve it.
   */
  lemma {:induction false} ScanBulletsMembership(reg: map<string, string>, bullets: seq<Value>, key: string)
    ensures key in ScanBullets(reg, bullets) <==>
              exists i :: 0 <= i < |bullets| && BulletKey(bullets[i]) == Some(key) && !Resolves(reg, key)
  {
    if bullets != [] {
      ScanBulletsMembership(reg, bullets[1..], key);
      if key in ScanBullets(reg, bullets[1..]) {
        var i :| 0 <= i < |bullets[1..]| && BulletKey(bullets[1..][i]) == Some(key) && !Resolves(reg, key);
        assert bullets[1..][i] == bullets[i + 1];
      }
      if exists i :: 0 <= i < |bullets| && BulletKey(bullets[i]) == Some(key) && !Resolves(reg, key) {
        var i :| 0 <= i < |bullets| && BulletKey(bullets[i]) == Some(key) && !Resolves(reg, key);
        if i > 0 {
          assert bullets[1..][i - 1] == bullets[i];
        }
      }
    }
  }

  /** Bullet `i` of job `j` is a placeholder for `key`, which the registry cannot resolve. */
  predicate UnresolvedAt(reg: map<string, string>, jobs: seq<Job>, j: int, i: int, key: string) {
    && 0 <= j < |jobs|
    && jobs[j].highlights.Array?
    && 0 <= i < |jobs[j].highlights.items|
    && BulletKey(jobs[j].highlights.items[i]) == Some(key)
    && !Resolves(reg, key)
  }

  /** A key is reported for a list of jobs exactly when some bullet of some job is an unresolved placeholder for it. */
  lemma {:induction false} ScanJobsMembership(reg: map<string, string>, jobs: seq<Job>, key: string)
    ensures key in ScanJobs(reg, jobs) <==> exists j, i :: UnresolvedAt(reg, jobs, j, i, key)
  {
    if jobs != [] {
      ScanJobsMembership(reg, jobs[1..], key);
      var first := jobs[0];
      if first.highlights.Array? {
        ScanBulletsMembership(reg, first.highlights.items, key);
      }
      if key in ScanJob(reg, first) {
        var i :| 0 <= i < |first.highlights.items| && BulletKey(first.highlights.items[i]) == Some(key) && !Resolves(reg, key);
        assert UnresolvedAt(reg, jobs, 0, i, key);
      }
      if key in ScanJobs(reg, jobs[1..]) {
        var j, i :| UnresolvedAt(reg, jobs[1..], j, i, key);
        assert UnresolvedAt(reg, jobs, j + 1, i, key);
      }
      if exists j, i :: UnresolvedAt(reg, jobs, j, i, key) {
        var j, i :| UnresolvedAt(reg, jobs, j, i, key);
        if j > 0 {
          assert UnresolvedAt(reg, jobs[1..], j - 1, i, key);
        }
      }
    }
  }

  /** `findUnexpandedTemplates` reports a key exactly when some highlight is an unresolved placeholder for it. */
  lemma UnexpandedTemplatesMembership(reg: map<string, string>, d: Doc, key: string)
    ensures key in UnexpandedTemplates(reg, d) <==>
              d.work.Array? && exists j, i :: UnresolvedAt(reg, d.work.items, j, i, key)
  {
    if d.work.Array? {
      ScanJobsMembership(reg, d.work.items, key);
    }
  }

  /** The number of bullets that are placeholders the registry cannot resolve. */
  function CountUnresolved(reg: map<string, string>, bullets: seq<Value>): nat {
    if bullets == [] then 0
    else (if BulletKey(bullets[0]).Some? && !Resolves(reg, BulletKey(bullets[0]).value) then 1 else 0)
         + CountUnresolved(reg, bullets[1..])
  }

  /** The scanner emits one entry per unresolved placeholder bullet, duplicates included. */
  lemma {:induction false} ScanBulletsCount(reg: map<string, string>, bullets: seq<Value>)
    ensures |ScanBullets(reg, bullets)| == CountUnresolved(reg, bullets)
  {
    if bullets != [] {
      ScanBulletsCount(reg, bullets[1..]);
    }
  }

  /** Extending a prefix of the bullets by one extends both the mapped list and the report. */
  lemma BulletStep(reg: map<string, string>, bullets: seq<Value>, i: nat)
    requires i < |bullets|
    ensures ExpandHighlights(reg, bullets[..i + 1]) == ExpandHighlights(reg, bullets[..i]) + [ExpandBullet(reg, bullets[i])]
    ensures ScanBullets(reg, bullets[..i + 1]) == ScanBullets(reg, bullets[..i]) + BulletUnresolved(reg, bullets[i])
  {
    assert bullets[..i + 1] == bullets[..i] + [bullets[i]];
    ExpandHighlightsAppend(reg, bullets[..i], [bullets[i]]);
    ScanBulletsAppend(reg, bullets[..i], [bullets[i]]);
    assert ScanBullets(reg, [bullets[i]]) == BulletUnresolved(reg, bullets[i]) + ScanBullets(reg, []);
  }

  /** Extending a prefix of the jobs by one extends both the expanded list and the report. */
  lemma JobStep(reg: map<string, string>, jobs: seq<Job>, j: nat)
    requires j < |jobs|
    ensures ExpandJobs(reg, jobs[..j + 1]) == ExpandJobs(reg, jobs[..j]) + [ExpandJob(reg, jobs[j])]
    ensures ScanJobs(reg, jobs[..j + 1]) == ScanJobs(reg, jobs[..j]) + ScanJob(reg, jobs[j])
  {
    assert jobs[..j + 1] == jobs[..j] + [jobs[j]];
    ExpandJobsAppend(reg, jobs[..j], [jobs[j]]);
    ScanJobsAppend(reg, jobs[..j], [jobs[j]]);
    assert ScanJobs(reg, [jobs[j]]) == ScanJob(reg, jobs[j]) + ScanJobs(reg, []);
  }

  /** One iteration of the scanner's inner loop. */
  method ScanBullet(reg: map<string, string>, b: Value) returns (keys: seq<string>)
    ensures keys == BulletUnresolved(reg, b)
  {
    keys := [];
    if b.Str? {
      var m := MatchPlaceholder(b.s);
      if m.Some? && !(m.value in reg && reg[m.value] != "") {
        keys := [m.value];
      }
    }
  }

  /** The scanner's inner loop over one job's bullets. */
  method ScanJobLoop(reg: map<string, string>, job: Job) returns (keys: seq<string>)
    ensures keys == ScanJob(reg, job)
  {
    keys := [];
    if job.highlights.Array? {
      var bullets := job.highlights.items;
      for i := 0 to |bullets|
        invariant keys == ScanBullets(reg, bullets[..i])
      {
        var found := ScanBullet(reg, bullets[i]);
        keys := keys + found;
        BulletStep(reg, bullets, i);
      }
      assert bullets[..|bullets|] == bullets;
    }
  }

  /**
   * `findUnexpandedTemplates` as written: nested loops pushing onto
   * `unexpanded`. It computes the same list as UnexpandedTemplates.
   */
  method FindUnexpandedTemplates(reg: map<string, string>, d: Doc) returns (unexpanded: seq<string>)
    ensures unexpanded == UnexpandedTemplates(reg, d)
  {
    unexpanded := [];
    if !d.work.Array? {
      return;
    }
    var jobs := d.work.items;
    for j := 0 to |jobs|
      invariant unexpanded == ScanJobs(reg, jobs[..j])
    {
      var found := ScanJobLoop(reg, jobs[j]);
      unexpanded := unexpanded + found;
      JobStep(reg, jobs, j);
    }
    assert jobs[..|jobs|] == jobs;
  }

  /** The `highlights.map` callback, with the warning it may print returned in `warnings`. */
  method ExpandBulletLogged(reg: map<string, string>, b: Value) returns (r: Value, warnings: seq<string>)
    ensures r == ExpandBullet(reg, b)
    ensures warnings == BulletUnresolved(reg, b)
  {
    r, warnings := b, [];
    if b.Str? {
      var m := MatchPlaceholder(b.s);
      if m.Some? {
        if m.value in reg && reg[m.value] != "" {
          r := Str(reg[m.value]);
        } else {
          warnings := [m.value];
        }
      }
    }
  }

  /** `highlights.map(...)` over one job's bullets, with the warnings it prints. */
  method ExpandHighlightsLogged(reg: map<string, string>, bullets: seq<Value>) returns (mapped: seq<Value>, warnings: seq<string>)
    ensures mapped == ExpandHighlights(reg, bullets)
    ensures warnings == ScanBullets(reg, bullets)
  {
    mapped, warnings := [], [];
    for i := 0 to |bullets|
      invariant mapped == ExpandHighlights(reg, bullets[..i])
      invariant warnings == ScanBullets(reg, bullets[..i])
    {
      var e, w := ExpandBulletLogged(reg, bullets[i]);
      mapped := mapped + [e];
      warnings := warnings + w;
      BulletStep(reg, bullets, i);
    }
    assert bullets[..|bullets|] == bullets;
  }

  /** One iteration of the loop over `data.work`, with the warnings it prints. */
  method ExpandJobLogged(reg: map<string, string>, job: Job) returns (r: Job, warnings: seq<string>)
    ensures r == ExpandJob(reg, job)
    ensures warnings == ScanJob(reg, job)
  {
    warnings := [];
    var highlights := job.highlights;
    if job.highlights.Array? {
      var mapped;
      mapped, warnings := ExpandHighlightsLogged(reg, job.highlights.items);
      highlights := Array(mapped);
    }
    r := Job(highlights, StripRef(job.highlightsRef), job.rest);
  }

  /**
   * `expandTemplates` as written, with its `console.warn` calls collected in
   * `warnings`: the expanded document equals ExpandTemplates, and the
   * warnings are exactly the keys the scanner reports, in the same order.
   */
  method ExpandTemplatesLogged(reg: map<string, string>, d: Doc) returns (r: Doc, warnings: seq<string>)
    ensures r == ExpandTemplates(reg, d)
    ensures warnings == UnexpandedTemplates(reg, d)
  {
    warnings := [];
    if !d.work.Array? {
      return d, warnings;
    }
    var jobs := d.work.items;
    var out: seq<Job> := [];
    for j := 0 to |jobs|
      invariant out == ExpandJobs(reg, jobs[..j])
      invariant warnings == ScanJobs(reg, jobs[..j])
    {
      var e, w := ExpandJobLogged(reg, jobs[j]);
      out := out + [e];
      warnings := warnings + w;
      JobStep(reg, jobs, j);
    }
    assert jobs[..|jobs|] == jobs;
    r := d.(work := Array(out));
  }
}
