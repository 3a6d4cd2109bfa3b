/**
 * The expander with its actual registry, `LOCKED_TEMPLATES`: the general
 * properties instantiated, and the behaviour on specific documents.
 */
module LockedExpansion {
  import opened Wrappers
  import opened Resume
  import opened Placeholder
  import opened LockedTemplates
  import opened TemplateExpander
  import opened ExpanderProperties

  /** For the locked registry the truthiness lookup is exactly membership. */
  lemma LockedResolvesIffMember()
    ensures forall key :: Resolves(Registry, key) <==> key in Registry
  {
    RegistryValuesNonEmpty();
    ResolvesIffMember(Registry);
  }

  /** Expansion with the locked registry is idempotent. */
  lemma LockedExpansionIdempotent(d: Doc)
    ensures ExpandTemplates(Registry, ExpandTemplates(Registry, d)) == ExpandTemplates(Registry, d)
  {
    RegistryValuesNotPlaceholders();
    ExpandTemplatesIdempotent(Registry, d);
  }

  /** Expansion with the locked registry leaves the scanner's report unchanged. */
  lemma LockedScanAfterExpansion(d: Doc)
    ensures UnexpandedTemplates(Registry, ExpandTemplates(Registry, d)) == UnexpandedTemplates(Registry, d)
  {
    RegistryValuesNotPlaceholders();
    UnexpandedTemplatesAfterExpansion(Registry, d);
  }

  /** With the locked registry, every reported key is outside the nine keys. */
  lemma LockedReportsOnlyUnknownKeys(d: Doc)
    ensures forall k :: k in UnexpandedTemplates(Registry, d) ==> k !in Registry
  {
    LockedResolvesIffMember();
  }

  /** Full coverage: `{{key}}` expands to the key's stored text, character for character. */
  lemma EveryKeyExpands(key: string)
    requires key in Registry
    ensures ExpandTemplates(Registry, SingleBulletDoc(Str(Wrap(key)))) == SingleBulletDoc(Str(Registry[key]))
    ensures UnexpandedTemplates(Registry, SingleBulletDoc(Str(Wrap(key)))) == []
  {
    RegistryKeysMatchable();
    LockedResolvesIffMember();
    ResolvedPlaceholderDocument(Registry, key);
  }

  /** A placeholder for a key outside the registry is kept and reported exactly once. */
  lemma UnknownKeyKeptAndReported(key: string)
    requires key != [] && SingleLine(key) && key !in Registry
    ensures ExpandTemplates(Registry, SingleBulletDoc(Str(Wrap(key)))) == SingleBulletDoc(Str(Wrap(key)))
    ensures UnexpandedTemplates(Registry, SingleBulletDoc(Str(Wrap(key)))) == [key]
  {
    UnresolvedPlaceholderDocument(Registry, key);
  }

  /** The placeholder texts used by the examples below. */
  lemma ExampleWraps()
    ensures Wrap("not.a.real.key") == "{{not.a.real.key}}"
    ensures Wrap("freefly.0") == "{{freefly.0}}"
    ensures Wrap("freefly.1") == "{{freefly.1}}"
    ensures Wrap("york.0") == "{{york.0}}"
    ensures Wrap("york.9") == "{{york.9}}"
  {
  }

  /** `{{not.a.real.key}}` is left as it is and reported once. */
  lemma NotARealKeyReported()
    ensures var d := SingleBulletDoc(Str("{{not.a.real.key}}"));
            ExpandTemplates(Registry, d) == d && UnexpandedTemplates(Registry, d) == ["not.a.real.key"]
  {
    ExampleWraps();
    RegistryKeys();
    UnresolvedPlaceholderDocument(Registry, "not.a.real.key");
  }

  /** `{{freefly.0}}` is documented but not locked: it stays and is reported. */
  lemma FreeflyZeroStaysUnexpanded()
    ensures var d := SingleBulletDoc(Str("{{freefly.0}}"));
            ExpandTemplates(Registry, d) == d && UnexpandedTemplates(Registry, d) == ["freefly.0"]
  {
    ExampleWraps();
    RegistryKeys();
    UnresolvedPlaceholderDocument(Registry, "freefly.0");
  }

  /** Ordinary text passes through verbatim. */
  lemma PlainTextPassesThrough()
    ensures var d := SingleBulletDoc(Str("Led a team of 5 engineers"));
            ExpandTemplates(Registry, d) == d && UnexpandedTemplates(Registry, d) == []
  {
    PlainBullet(Registry, "Led a team of 5 engineers");
    SingleBulletDocument(Registry, Str("Led a team of 5 engineers"));
  }

  /** A truthy `highlights_ref` is removed while the highlights are expanded. */
  lemma HighlightsRefStripped()
    ensures var job := Job(Array([Str("{{freefly.1}}")]), Some(Str("freefly")), []);
            ExpandJob(Registry, job) == Job(Array([Str(Registry["freefly.1"])]), None, [])
  {
    ExampleWraps();
    RegistryKeys();
    RegistryKeysMatchable();
    LockedResolvesIffMember();
    ResolvedJobDropsRef(Registry, "freefly.1", Str("freefly"));
  }

  /**
   * One resolved placeholder, one unresolved placeholder and one plain
   * bullet: the scanner reports just the unresolved key.
   */
  lemma MixedDocumentScan()
    ensures var d := Doc(Array([Job(Array([Str("{{york.0}}"), Str("{{york.9}}"), Str("Shipped it")]), None, [])]), []);
            UnexpandedTemplates(Registry, d) == ["york.9"]
  {
    ExampleWraps();
    RegistryKeys();
    RegistryKeysMatchable();
    LockedResolvesIffMember();
    MixedBulletsScan(Registry, "york.0", "york.9", "Shipped it");
  }
}
