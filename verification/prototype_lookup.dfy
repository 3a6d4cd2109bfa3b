/**
 * The registry lookup as the JavaScript code performs it. `LOCKED_TEMPLATES`
 * is a plain object literal, so `LOCKED_TEMPLATES[key]` also finds the
 * members every object inherits from `Object.prototype`; all of them are
 * functions or objects, hence truthy. A placeholder such as `{{toString}}`
 * is therefore "resolved" to a function value instead of being kept and
 * reported. TemplateExpander models the intended lookup (own keys only);
 * this module models the lookup as written and shows where the two differ.
 */
module PrototypeLookup {
  import opened Wrappers
  import opened Resume
  import opened Placeholder
  import opened LockedTemplates
  import opened TemplateExpander

  /** The property names `Object.prototype` provides to every plain object. */
  const InheritedMembers: set<string> :=
    {"constructor", "hasOwnProperty", "isPrototypeOf", "propertyIsEnumerable",
     "toLocaleString", "toString", "valueOf", "__proto__",
     "__defineGetter__", "__defineSetter__", "__lookupGetter__", "__lookupSetter__"}

  /** The opaque stand-in for the function or object an inherited member yields. */
  const InheritedValue: Value := Nested(0)

  /** `LOCKED_TEMPLATES[key]` on an object literal: own entry, else inherited member, else undefined. */
  function LookupAsWritten(reg: map<string, string>, key: string): (r: Option<Value>)
    ensures (r.Some? && Truthy(r.value)) <==> Resolves(reg, key) || (key !in reg && key in InheritedMembers)
  {
    if key in reg then Some(Str(reg[key]))
    else if key in InheritedMembers then Some(InheritedValue)
    else None
  }

  /** The `highlights.map` callback with the as-written lookup. */
  function ExpandBulletAsWritten(reg: map<string, string>, b: Value): (r: Value)
    ensures BulletKey(b).None? || BulletKey(b).value in reg || BulletKey(b).value !in InheritedMembers
            ==> r == ExpandBullet(reg, b)
    ensures BulletKey(b).Some? && BulletKey(b).value !in reg && BulletKey(b).value in InheritedMembers
            ==> r == InheritedValue
  {
    match b
    case Str(s) =>
      (match PlaceholderKey(s)
       case Some(key) =>
         var found := LookupAsWritten(reg, key);
         if found.Some? && Truthy(found.value) then found.value else b
       case None => b)
    case _ => b
  }

  /** The scanner's test for one bullet with the as-written lookup. */
  function BulletUnresolvedAsWritten(reg: map<string, string>, b: Value): (r: seq<string>)
    ensures BulletKey(b).None? || BulletKey(b).value in reg || BulletKey(b).value !in InheritedMembers
            ==> r == BulletUnresolved(reg, b)
    ensures BulletKey(b).Some? && BulletKey(b).value !in reg && BulletKey(b).value in InheritedMembers
            ==> r == []
  {
    match b
    case Str(s) =>
      (match PlaceholderKey(s)
       case Some(key) =>
         var found := LookupAsWritten(reg, key);
         if !(found.Some? && Truthy(found.value)) then [key] else []
       case None => [])
    case _ => []
  }

  /** No registry key collides with an inherited member name. */
  lemma RegistryAvoidsInheritedNames()
    ensures forall k :: k in InheritedMembers ==> k !in Registry
  {
    InheritedNamesHaveNoDot();
    RegistryKeysTwoSegment();
    forall k | k in Registry ensures !NoDot(k) {
      var i :| 0 < i < |k| - 1 && k[i] == '.' && NoDot(k[..i]) && NoDot(k[i + 1..]);
    }
  }

  /** Inherited member names are plain identifiers, without a dot. */
  lemma InheritedNamesHaveNoDot()
    ensures forall k :: k in InheritedMembers ==> NoDot(k)
  {
  }

  /**
   * `{{toString}}` as written: the bullet is replaced by a function value and
   * the scanner stays silent. The intended expander keeps the string and the
   * intended scanner reports `toString`.
   */
  lemma InheritedMemberSwallowed()
    ensures ExpandBulletAsWritten(Registry, Str("{{toString}}")) == InheritedValue
    ensures BulletUnresolvedAsWritten(Registry, Str("{{toString}}")) == []
    ensures ExpandBullet(Registry, Str("{{toString}}")) == Str("{{toString}}")
    ensures BulletUnresolved(Registry, Str("{{toString}}")) == ["toString"]
  {
    assert Wrap("toString") == "{{toString}}";
    WrapThenMatch("toString");
    RegistryAvoidsInheritedNames();
  }

  /** Inherited member names are non-empty and single-line, so `{{name}}` is a placeholder. */
  lemma InheritedNamesMatchable()
    ensures forall k :: k in InheritedMembers ==> k != [] && SingleLine(k)
  {
  }

  /**
   * The intended behaviour for every inherited member name: the placeholder
   * is kept unchanged and reported as its key, like any other unknown key.
   */
  lemma InheritedNamesKeptAndReported(key: string)
    requires key in InheritedMembers
    ensures ExpandBullet(Registry, Str(Wrap(key))) == Str(Wrap(key))
    ensures BulletUnresolved(Registry, Str(Wrap(key))) == [key]
  {
    InheritedNamesMatchable();
    RegistryAvoidsInheritedNames();
    WrapThenMatch(key);
  }
}
