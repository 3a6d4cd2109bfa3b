/**
 * The registry of locked resume sentences: a constant map from dotted
 * template keys to text that must be reproduced verbatim.
 */
module LockedTemplates {
  import opened Wrappers
  import opened Placeholder

  /** `LOCKED_TEMPLATES`, entry for entry, in the order the literal lists them. */
  const Registry: map<string, string> := map[
    "freefly.1" := "Contributed to drone platform codebases implementing new features and optimizations for flight control systems and payload integration across multiple product lines, managed software integration projects from planning through release",
    "freefly.2" := "Led release management for drone platforms overseeing testing phases from alpha through production deployment, coordinating firmware updates and executing comprehensive testing protocols with cross-functional teams",
    "freefly.3" := "Built automated systems to process complex technical data and identify system failures, developing knowledge base enhancements and support tools that streamlined operations",
    "lumenier.0" := "Wrote embedded code in C++ to integrate LiDAR and optical flow sensors for obstacle avoidance and position holding with/without GPS under various lighting conditions",
    "lumenier.1" := "Collaborated with open-source flight control software maintainers for integration, testing, and deployment of autonomous flight algorithms, prototyped innovative features like toss-to-launch for product roadmap development",
    "york.0" := "Developed prototype software for in-house autonomous surveillance mobile robots using ROS2, SLAM, and computer vision technologies",
    "york.1" := "Built Human Machine Interface for Universal Robot welding applications using Python and Kivy framework, implemented multi-robot control systems with platform independence",
    "freefly.ai_engineer" := "Built and deployed GenAI-powered agent for automated log analysis from concept to production, integrating foundation model APIs (Ollama, Llama 3.2) with evaluation frameworks and model governance practices, serving 200+ daily queries",
    "freefly.software_product" := "Developed comprehensive diagnostic and analysis tools for engineering teams, independently designed and built AI-powered diagnostic tool using Python and modern LLM frameworks from requirements to production, improving customer self-service capabilities and team response times by 40%"
  ]

  /** A key is `<namespace>.<segment>`: exactly one dot, with text on both sides. */
  predicate TwoSegmentKey(k: string) {
    exists i :: 0 < i < |k| - 1 && k[i] == '.' && NoDot(k[..i]) && NoDot(k[i + 1..])
  }

  predicate NoDot(s: string) {
    forall i :: 0 <= i < |s| ==> s[i] != '.'
  }

  /** Witness for `TwoSegmentKey`: the only dot of `k` is at `i`, strictly inside. */
  lemma OnlyDotAt(k: string, i: int)
    requires 0 < i < |k| - 1 && k[i] == '.'
    requires forall j :: 0 <= j < |k| && j != i ==> k[j] != '.'
    ensures TwoSegmentKey(k)
  {
    var head, tail := k[..i], k[i + 1..];
    assert NoDot(head) by {
      forall j | 0 <= j < |head| ensures head[j] != '.' { assert head[j] == k[j]; }
    }
    assert NoDot(tail) by {
      forall j | 0 <= j < |tail| ensures tail[j] != '.' { assert tail[j] == k[i + 1 + j]; }
    }
  }

  /** The nine keys the literal defines. */
  const LockedKeys: set<string> :=
    {"freefly.1", "freefly.2", "freefly.3", "lumenier.0", "lumenier.1",
     "york.0", "york.1", "freefly.ai_engineer", "freefly.software_product"}

  /** Every value is a non-empty string (so the JavaScript truthiness test is membership). */
  predicate ValuesNonEmpty(reg: map<string, string>) {
    forall k :: k in reg ==> reg[k] != []
  }

  /** No value is itself a placeholder. */
  predicate NoValueIsPlaceholder(reg: map<string, string>) {
    forall k :: k in reg ==> PlaceholderKey(reg[k]) == None
  }

  /** The registry holds exactly the nine keys of the literal. */
  lemma RegistryKeys()
    ensures Registry.Keys == LockedKeys
  {
  }

  /** Nine distinct keys, so nine entries. */
  lemma RegistrySize()
    ensures |Registry| == 9
  {
    RegistryKeys();
    LockedKeysCount();
  }

  lemma LockedKeysCount()
    ensures |LockedKeys| == 9
  {
  }

  /** Every registry key has the `<namespace>.<segment>` form. */
  lemma RegistryKeysTwoSegment()
    ensures forall k :: k in Registry ==> TwoSegmentKey(k)
  {
    RegistryKeys();
    LockedKeysTwoSegment();
  }

  lemma LockedKeysTwoSegment()
    ensures forall k :: k in LockedKeys ==> TwoSegmentKey(k)
  {
    OnlyDotAt("freefly.1", 7);
    OnlyDotAt("freefly.2", 7);
    OnlyDotAt("freefly.3", 7);
    OnlyDotAt("lumenier.0", 8);
    OnlyDotAt("lumenier.1", 8);
    OnlyDotAt("york.0", 4);
    OnlyDotAt("york.1", 4);
    OnlyDotAt("freefly.ai_engineer", 7);
    OnlyDotAt("freefly.software_product", 7);
  }

  /** Every key can be written as a placeholder: it is non-empty and `.` matches each of its characters. */
  lemma RegistryKeysMatchable()
    ensures forall k :: k in Registry ==> k != [] && SingleLine(k)
  {
    forall k | k in Registry ensures k != [] && SingleLine(k) {
      RegistryKeys();
      KeyCharsMatchable(k);
    }
  }

  /** Keys are written with letters, digits, `_` and `.` only. */
  predicate KeyChar(c: char) {
    ('a' <= c <= 'z') || ('0' <= c <= '9') || c == '_' || c == '.'
  }

  lemma KeyCharsMatchable(k: string)
    requires k in LockedKeys
    ensures k != [] && SingleLine(k)
  {
    assert forall i :: 0 <= i < |k| ==> KeyChar(k[i]);
  }

  /**
   * Every value is a non-empty string, so the truthiness test
   * `LOCKED_TEMPLATES[key]` succeeds exactly for the registry's keys.
   */
  lemma RegistryValuesNonEmpty()
    ensures ValuesNonEmpty(Registry)
  {
  }

  /** Every value is non-empty and ends in a character other than `}`. */
  predicate ValuesEndWithoutBrace(reg: map<string, string>) {
    forall k :: k in reg ==> reg[k] != [] && reg[k][|reg[k]| - 1] != '}'
  }

  /** A registry whose values all end in something other than `}` holds no placeholder. */
  lemma NoBraceEndingNoPlaceholder(reg: map<string, string>)
    requires ValuesEndWithoutBrace(reg)
    ensures NoValueIsPlaceholder(reg)
  {
    forall k | k in reg ensures PlaceholderKey(reg[k]) == None {
      NoClosingBraceNoMatch(reg[k]);
    }
  }

  /** No value ends in `}`: each one ends in a letter, a digit or `%`. */
  lemma RegistryValuesEndWithoutBrace()
    ensures ValuesEndWithoutBrace(Registry)
  {
  }

  /**
   * No value is itself a placeholder, so expanded text is never expanded
   * again and never reported as unresolved.
   */
  lemma RegistryValuesNotPlaceholders()
    ensures NoValueIsPlaceholder(Registry)
  {
    RegistryValuesEndWithoutBrace();
    NoBraceEndingNoPlaceholder(Registry);
  }

  /** The template IDs the registry's documentation lists, in its order. */
  const DocumentedIds: seq<string> :=
    ["freefly.0", "freefly.1", "freefly.2", "freefly.3", "lumenier.0", "lumenier.1", "york.0", "york.1"]

  /**
   * `freefly.0` (the customizable first Freefly bullet) is documented but
   * deliberately not locked; every other documented ID is a key.
   */
  lemma DocumentedIdsCoverage()
    ensures DocumentedIds[0] == "freefly.0" && DocumentedIds[0] !in Registry
    ensures forall i :: 1 <= i < |DocumentedIds| ==> DocumentedIds[i] in Registry
  {
  }

  /** `getAvailableTemplates`: the registry's keys, in the order the literal lists them. */
  function AvailableTemplates(): (keys: seq<string>)
    ensures |keys| == |Registry|
    ensures forall k :: k in keys <==> k in Registry
    ensures forall i, j :: 0 <= i < j < |keys| ==> keys[i] != keys[j]
  {
    RegistrySize();
    RegistryKeys();
    KeyOrderListsLockedKeys();
    KeyOrder
  }

  /** The keys in the order the literal lists them. */
  const KeyOrder: seq<string> :=
    ["freefly.1", "freefly.2", "freefly.3", "lumenier.0", "lumenier.1",
     "york.0", "york.1", "freefly.ai_engineer", "freefly.software_product"]

  lemma KeyOrderListsLockedKeys()
    ensures |KeyOrder| == 9
    ensures forall k :: k in KeyOrder <==> k in LockedKeys
    ensures forall i, j :: 0 <= i < j < |KeyOrder| ==> KeyOrder[i] != KeyOrder[j]
  {
  }
}
