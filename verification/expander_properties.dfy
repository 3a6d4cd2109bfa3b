/**
 * Properties of the expander that hold for every registry whose values are
 * not placeholders: idempotence, invariance of the scanner under expansion,
 * and the behaviour on one-bullet documents.
 */
module ExpanderProperties {
  import opened Wrappers
  import opened Resume
  import opened Placeholder
  import opened LockedTemplates
  import opened TemplateExpander

  /** Expanded text is never a placeholder, so a second expansion leaves a bullet alone. */
  lemma ExpandBulletIdempotent(reg: map<string, string>, b: Value)
    requires NoValueIsPlaceholder(reg)
    ensures ExpandBullet(reg, ExpandBullet(reg, b)) == ExpandBullet(reg, b)
  {
  }

  /** Expanding a bullet does not change what the scanner reports for it. */
  lemma ExpandBulletKeepsUnresolved(reg: map<string, string>, b: Value)
    requires NoValueIsPlaceholder(reg)
    ensures BulletUnresolved(reg, ExpandBullet(reg, b)) == BulletUnresolved(reg, b)
  {
  }

  /** After expansion, a bullet that is still a placeholder names a key the registry cannot resolve. */
  lemma ExpandBulletLeavesOnlyUnresolved(reg: map<string, string>, b: Value)
    requires NoValueIsPlaceholder(reg)
    ensures BulletKey(ExpandBullet(reg, b)).Some? ==> !Resolves(reg, BulletKey(ExpandBullet(reg, b)).value)
  {
  }

  lemma ExpandJobIdempotent(reg: map<string, string>, job: Job)
    requires NoValueIsPlaceholder(reg)
    ensures ExpandJob(reg, ExpandJob(reg, job)) == ExpandJob(reg, job)
  {
    if job.highlights.Array? {
      var once := ExpandJob(reg, job).highlights.items;
      var twice := ExpandJob(reg, ExpandJob(reg, job)).highlights.items;
      forall i | 0 <= i < |once| ensures twice[i] == once[i] {
        ExpandBulletIdempotent(reg, job.highlights.items[i]);
      }
    }
  }

  /** `expandTemplates(expandTemplates(D))` equals `expandTemplates(D)`. */
  lemma ExpandTemplatesIdempotent(reg: map<string, string>, d: Doc)
    requires NoValueIsPlaceholder(reg)
    ensures ExpandTemplates(reg, ExpandTemplates(reg, d)) == ExpandTemplates(reg, d)
  {
    if d.work.Array? {
      var once := ExpandTemplates(reg, d).work.items;
      var twice := ExpandTemplates(reg, ExpandTemplates(reg, d)).work.items;
      forall i | 0 <= i < |once| ensures twice[i] == once[i] {
        ExpandJobIdempotent(reg, d.work.items[i]);
      }
    }
  }

  lemma {:induction false} ScanBulletsAfterExpansion(reg: map<string, string>, bullets: seq<Value>)
    requires NoValueIsPlaceholder(reg)
    ensures ScanBullets(reg, ExpandHighlights(reg, bullets)) == ScanBullets(reg, bullets)
  {
    if bullets != [] {
      var e := ExpandHighlights(reg, bullets);
      assert e[1..] == ExpandHighlights(reg, bullets[1..]);
      ExpandBulletKeepsUnresolved(reg, bullets[0]);
      ScanBulletsAfterExpansion(reg, bullets[1..]);
    }
  }

  lemma {:induction false} ScanJobsAfterExpansion(reg: map<string, string>, jobs: seq<Job>)
    requires NoValueIsPlaceholder(reg)
    ensures ScanJobs(reg, ExpandJobs(reg, jobs)) == ScanJobs(reg, jobs)
  {
    if jobs != [] {
      var e := ExpandJobs(reg, jobs);
      assert e[1..] == ExpandJobs(reg, jobs[1..]);
      if jobs[0].highlights.Array? {
        assert e[0].highlights.items == ExpandHighlights(reg, jobs[0].highlights.items);
        ScanBulletsAfterExpansion(reg, jobs[0].highlights.items);
      }
      ScanJobsAfterExpansion(reg, jobs[1..]);
    }
  }

  /** `findUnexpandedTemplates(expandTemplates(D))` equals `findUnexpandedTemplates(D)`. */
  lemma UnexpandedTemplatesAfterExpansion(reg: map<string, string>, d: Doc)
    requires NoValueIsPlaceholder(reg)
    ensures UnexpandedTemplates(reg, ExpandTemplates(reg, d)) == UnexpandedTemplates(reg, d)
  {
    if d.work.Array? {
      ScanJobsAfterExpansion(reg, d.work.items);
    }
  }

  /**
   * Every placeholder left in an expanded document names a key the registry
   * cannot resolve: nothing resolvable survives expansion.
   */
  lemma NoResolvablePlaceholderSurvives(reg: map<string, string>, d: Doc, j: nat, i: nat)
    requires NoValueIsPlaceholder(reg)
    requires d.work.Array? && j < |d.work.items|
    requires d.work.items[j].highlights.Array? && i < |d.work.items[j].highlights.items|
    ensures var b := ExpandTemplates(reg, d).work.items[j].highlights.items[i];
            BulletKey(b).Some? ==> !Resolves(reg, BulletKey(b).value)
  {
    ExpandBulletLeavesOnlyUnresolved(reg, d.work.items[j].highlights.items[i]);
  }

  /** A one-job, one-bullet document expands and scans as its bullet does. */
  lemma SingleBulletDocument(reg: map<string, string>, b: Value)
    ensures ExpandTemplates(reg, SingleBulletDoc(b)) == SingleBulletDoc(ExpandBullet(reg, b))
    ensures UnexpandedTemplates(reg, SingleBulletDoc(b)) == BulletUnresolved(reg, b)
  {
    var job := Job(Array([b]), None, []);
    assert ExpandJobs(reg, [job]) == [ExpandJob(reg, job)];
    assert ExpandHighlights(reg, [b]) == [ExpandBullet(reg, b)];
    assert ScanBullets(reg, [b]) == BulletUnresolved(reg, b) + ScanBullets(reg, []);
    assert ScanJobs(reg, [job]) == ScanJob(reg, job) + ScanJobs(reg, []);
  }

  /** The bullet `{{key}}` becomes the key's text when it resolves and is reported otherwise. */
  lemma PlaceholderBullet(reg: map<string, string>, key: string)
    requires key != [] && SingleLine(key)
    ensures Resolves(reg, key) ==> ExpandBullet(reg, Str(Wrap(key))) == Str(reg[key])
    ensures !Resolves(reg, key) ==> ExpandBullet(reg, Str(Wrap(key))) == Str(Wrap(key))
    ensures BulletUnresolved(reg, Str(Wrap(key))) == if Resolves(reg, key) then [] else [key]
  {
    WrapThenMatch(key);
  }

  /** Ordinary text (here: anything not ending in `}`) passes through and is not reported. */
  lemma PlainBullet(reg: map<string, string>, s: string)
    requires s == [] || s[|s| - 1] != '}'
    ensures ExpandBullet(reg, Str(s)) == Str(s)
    ensures BulletUnresolved(reg, Str(s)) == []
  {
    NoClosingBraceNoMatch(s);
  }

  /** A falsy `highlights_ref` such as the empty string is kept. */
  lemma FalsyHighlightsRefKept(reg: map<string, string>, job: Job)
    requires job.highlightsRef == Some(Str(""))
    ensures ExpandJob(reg, job).highlightsRef == Some(Str(""))
  {
  }

  /** `{}` and `{ "work": [] }` expand to themselves. */
  lemma EmptyDocumentsUnchanged(reg: map<string, string>, rest: Fields)
    ensures ExpandTemplates(reg, Doc(Absent, rest)) == Doc(Absent, rest)
    ensures ExpandTemplates(reg, Doc(Array([]), rest)) == Doc(Array([]), rest)
  {
  }

  /** The report for a one-job, three-bullet document is the three bullets' reports in order. */
  lemma ThreeBulletScan(reg: map<string, string>, a: Value, b: Value, c: Value)
    ensures UnexpandedTemplates(reg, Doc(Array([Job(Array([a, b, c]), None, [])]), []))
            == BulletUnresolved(reg, a) + BulletUnresolved(reg, b) + BulletUnresolved(reg, c)
  {
    var bullets := [a, b, c];
    assert bullets[1..] == [b, c] && [b, c][1..] == [c] && [c][1..] == [];
    assert ScanBullets(reg, [c]) == BulletUnresolved(reg, c);
    assert ScanBullets(reg, [b, c]) == BulletUnresolved(reg, b) + BulletUnresolved(reg, c);
    assert ScanBullets(reg, bullets) == BulletUnresolved(reg, a) + (BulletUnresolved(reg, b) + BulletUnresolved(reg, c));
    var job := Job(Array(bullets), None, []);
    assert ScanJobs(reg, [job]) == ScanJob(reg, job) + ScanJobs(reg, []);
  }

  /** A document whose only bullet is an unresolvable placeholder is unchanged and reports that key once. */
  lemma UnresolvedPlaceholderDocument(reg: map<string, string>, key: string)
    requires key != [] && SingleLine(key) && !Resolves(reg, key)
    ensures ExpandTemplates(reg, SingleBulletDoc(Str(Wrap(key)))) == SingleBulletDoc(Str(Wrap(key)))
    ensures UnexpandedTemplates(reg, SingleBulletDoc(Str(Wrap(key)))) == [key]
  {
    PlaceholderBullet(reg, key);
    SingleBulletDocument(reg, Str(Wrap(key)));
  }

  /** A document whose only bullet is a resolvable placeholder gets that key's text. */
  lemma ResolvedPlaceholderDocument(reg: map<string, string>, key: string)
    requires key != [] && SingleLine(key) && Resolves(reg, key)
    ensures ExpandTemplates(reg, SingleBulletDoc(Str(Wrap(key)))) == SingleBulletDoc(Str(reg[key]))
    ensures UnexpandedTemplates(reg, SingleBulletDoc(Str(Wrap(key)))) == []
  {
    PlaceholderBullet(reg, key);
    SingleBulletDocument(reg, Str(Wrap(key)));
  }

  /** A job with a truthy `highlights_ref` loses it while its placeholder bullet is expanded. */
  lemma ResolvedJobDropsRef(reg: map<string, string>, key: string, ref: Value)
    requires key != [] && SingleLine(key) && Resolves(reg, key) && Truthy(ref)
    ensures ExpandJob(reg, Job(Array([Str(Wrap(key))]), Some(ref), [])) == Job(Array([Str(reg[key])]), None, [])
  {
    PlaceholderBullet(reg, key);
    assert ExpandHighlights(reg, [Str(Wrap(key))]) == [ExpandBullet(reg, Str(Wrap(key)))];
  }

  /**
   * A resolvable placeholder, an unresolvable one and plain text in one job:
   * only the unresolvable key is reported.
   */
  lemma MixedBulletsScan(reg: map<string, string>, known: string, unknown: string, text: string)
    requires known != [] && SingleLine(known) && Resolves(reg, known)
    requires unknown != [] && SingleLine(unknown) && !Resolves(reg, unknown)
    requires text == [] || text[|text| - 1] != '}'
    ensures UnexpandedTemplates(reg, Doc(Array([Job(Array([Str(Wrap(known)), Str(Wrap(unknown)), Str(text)]), None, [])]), []))
            == [unknown]
  {
    PlaceholderBullet(reg, known);
    PlaceholderBullet(reg, unknown);
    PlainBullet(reg, text);
    ThreeBulletScan(reg, Str(Wrap(known)), Str(Wrap(unknown)), Str(text));
  }

  /** Expansion keeps a document a well-formed JSON object: it never touches the other fields. */
  lemma ExpandTemplatesWellFormed(reg: map<string, string>, d: Doc)
    requires WellFormedDoc(d)
    ensures WellFormedDoc(ExpandTemplates(reg, d))
  {
  }
}
