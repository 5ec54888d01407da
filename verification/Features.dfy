/** The three feature flags that instance and project metadata switch on and off. */
module Features {
  import opened Wrappers
  import opened Text

  datatype Feature = Tasks | GuestPolicies | Inventory

  /** The attributes of one level of metadata that touch the flags; "" is an absent attribute. */
  datatype Attributes = Attributes(
    inventory: string, inventoryOld: string,
    preRelease: string, preReleaseOld: string,
    osConfig: string, disabled: string)

  /** Lower case, where the result can be a letter of the feature names. */
  function Lower(c: char): char {
    if 'A' <= c <= 'Z' then c - 'A' + 'a'
    else if c == '\U{212A}' then 'k'
    else if c == '\U{0130}' then 'i'
    else c
  }

  function ToLower(s: string): string { if s == "" then "" else [Lower(s[0])] + ToLower(s[1..]) }

  /** The feature a word of a list names. */
  function Named(word: string): Option<Feature> {
    var f := ToLower(Trim(word, WhiteSpace));
    if f == "tasks" || f == "ospatch" then Some(Tasks)
    else if f == "guestpolicies" || f == "ospackage" then Some(GuestPolicies)
    else if f == "osinventory" then Some(Inventory)
    else None
  }

  /** strconv.ParseBool, where anything it does not know is false. */
  function ParseBool(s: string): bool { s in TRUE_WORDS }

  const TRUE_WORDS := ["1", "t", "T", "true", "TRUE", "True"]

  // ---------------------------------------------------------------- the imperative code

  class Config {
    var taskNotificationEnabled: bool
    var guestPoliciesEnabled: bool
    var osInventoryEnabled: bool

    function Flag(f: Feature): bool
      reads this
    {
      match f
      case Tasks => taskNotificationEnabled
      case GuestPolicies => guestPoliciesEnabled
      case Inventory => osInventoryEnabled
    }

    /** parseFeatures sets every flag its list names. */
    method ParseFeatures(features: string, enabled: bool)
      modifies this
      ensures taskNotificationEnabled == if Names(features, Tasks) then enabled else old(taskNotificationEnabled)
      ensures guestPoliciesEnabled == if Names(features, GuestPolicies) then enabled else old(guestPoliciesEnabled)
      ensures osInventoryEnabled == if Names(features, Inventory) then enabled else old(osInventoryEnabled)
    {
      hide Named, Split;
      var words := Split(features, ',');
      for i := 0 to |words|
        invariant taskNotificationEnabled ==
                  if NamedIn(words[..i], Tasks) then enabled else old(taskNotificationEnabled)
        invariant guestPoliciesEnabled ==
                  if NamedIn(words[..i], GuestPolicies) then enabled else old(guestPoliciesEnabled)
        invariant osInventoryEnabled == if NamedIn(words[..i], Inventory) then enabled else old(osInventoryEnabled)
      {
        NamedPush(words, i);
        match Named(words[i]) {
          case Some(Tasks) => taskNotificationEnabled := enabled;
          case Some(GuestPolicies) => guestPoliciesEnabled := enabled;
          case Some(Inventory) => osInventoryEnabled := enabled;
          case None =>
        }
      }
      assert words[..|words|] == words;
    }

    /** One level of metadata. */
    method Apply(a: Attributes)
      modifies this
      ensures taskNotificationEnabled == Level(a, Tasks, old(taskNotificationEnabled))
      ensures guestPoliciesEnabled == Level(a, GuestPolicies, old(guestPoliciesEnabled))
      ensures osInventoryEnabled == Level(a, Inventory, old(osInventoryEnabled))
    {
      hide Names, ParseBool;
      if a.inventory != "" {
        osInventoryEnabled := ParseBool(a.inventory);
      } else if a.inventoryOld != "" {
        osInventoryEnabled := ParseBool(a.inventoryOld);
      }
      ParseFeatures(a.preReleaseOld, true);
      ParseFeatures(a.preRelease, true);
      if a.osConfig != "" {
        var e := ParseBool(a.osConfig);
        taskNotificationEnabled := e;
        guestPoliciesEnabled := e;
        osInventoryEnabled := e;
      }
      ParseFeatures(a.disabled, false);
    }

    /** The feature section of createConfigFromMetadata: all off, then the project, then the instance. */
    constructor (project: Attributes, instance: Attributes)
      ensures forall f :: Flag(f) == Last(Layers(project) + Layers(instance), f, false)
      ensures taskNotificationEnabled == Decided(project, instance, Tasks)
      ensures guestPoliciesEnabled == Decided(project, instance, GuestPolicies)
      ensures osInventoryEnabled == Decided(project, instance, Inventory)
    {
      taskNotificationEnabled, guestPoliciesEnabled, osInventoryEnabled := false, false, false;
      new;
      Apply(project);
      Apply(instance);
      hide Layers, Last, Level, Names, ParseBool;
      DecidedIsLast(project, instance, Tasks);
      DecidedIsLast(project, instance, GuestPolicies);
      DecidedIsLast(project, instance, Inventory);
    }
  }

  predicate NamedIn(words: seq<string>, f: Feature) { exists i :: 0 <= i < |words| && Named(words[i]) == Some(f) }

  predicate Names(features: string, f: Feature) { NamedIn(Split(features, ','), f) }

  lemma {:induction false} NamedPush(words: seq<string>, i: nat)
    requires i < |words|
    ensures forall f :: NamedIn(words[..i + 1], f) <==> NamedIn(words[..i], f) || Named(words[i]) == Some(f)
  {
    hide Named;
    var before, after := words[..i], words[..i + 1];
    assert after == before + [words[i]];
    forall f
      ensures NamedIn(after, f) <==> NamedIn(before, f) || Named(words[i]) == Some(f)
    {
      if NamedIn(before, f) {
        var k :| 0 <= k < |before| && Named(before[k]) == Some(f);
        assert Named(after[k]) == Some(f);
      }
      if Named(words[i]) == Some(f) {
        assert Named(after[i]) == Some(f);
      }
    }
  }

  // ---------------------------------------------------------------- the declarative rule

  /** One attribute: which features it mentions, and what it says of them. */
  datatype Layer = InventoryOnly(value: string) | ListOf(features: string, on: bool) | AllThree(value: string)

  function Says(l: Layer, f: Feature): Option<bool> {
    match l
    case InventoryOnly(v) => if v != "" && f.Inventory? then Some(ParseBool(v)) else None
    case ListOf(features, on) => if Names(features, f) then Some(on) else None
    case AllThree(v) => if v != "" then Some(ParseBool(v)) else None
  }

  /** The attributes of a level in rising precedence; the old inventory name counts only alone. */
  function Layers(a: Attributes): seq<Layer> {
    [InventoryOnly(if a.inventory != "" then a.inventory else a.inventoryOld),
     ListOf(a.preReleaseOld, true), ListOf(a.preRelease, true), AllThree(a.osConfig), ListOf(a.disabled, false)]
  }

  /** The last layer that mentions the feature decides. */
  function Last(layers: seq<Layer>, f: Feature, default: bool): bool {
    if layers == [] then default
    else
      match Says(layers[|layers| - 1], f)
      case Some(b) => b
      case None => Last(layers[..|layers| - 1], f, default)
  }

  predicate Mentions(layers: seq<Layer>, f: Feature) { exists i :: 0 <= i < |layers| && Says(layers[i], f).Some? }

  lemma {:induction false} LastOfConcat(a: seq<Layer>, b: seq<Layer>, f: Feature, default: bool)
    ensures Last(a + b, f, default) == Last(b, f, Last(a, f, default))
  {
    if b == [] {
      assert a + b == a;
    } else {
      assert (a + b)[..|a + b| - 1] == a + b[..|b| - 1];
      LastOfConcat(a, b[..|b| - 1], f, default);
    }
  }

  lemma {:induction false} LastStep(l: seq<Layer>, i: nat, f: Feature, default: bool)
    requires i < |l|
    ensures Last(l[..i + 1], f, default) ==
            if Says(l[i], f).Some? then Says(l[i], f).value else Last(l[..i], f, default)
  {
    assert l[..i + 1][..i] == l[..i];
  }

  lemma {:induction false} LastOfFive(l: seq<Layer>, f: Feature, default: bool)
    requires |l| == 5
    ensures Last(l, f, default) ==
            if Says(l[4], f).Some? then Says(l[4], f).value
            else if Says(l[3], f).Some? then Says(l[3], f).value
            else if Says(l[2], f).Some? then Says(l[2], f).value
            else if Says(l[1], f).Some? then Says(l[1], f).value
            else if Says(l[0], f).Some? then Says(l[0], f).value
            else default
  {
    assert l[..5] == l;
    LastStep(l, 4, f, default);
    LastStep(l, 3, f, default);
    LastStep(l, 2, f, default);
    LastStep(l, 1, f, default);
    LastStep(l, 0, f, default);
  }

  /** A word that is, trimmed and in lower case, one of the feature's names. */
  predicate Spells(text: string, f: Feature) {
    var word := ToLower(Trim(text, WhiteSpace));
    match f
    case Tasks => word == "tasks" || word == "ospatch"
    case GuestPolicies => word == "guestpolicies" || word == "ospackage"
    case Inventory => word == "osinventory"
  }

  predicate SomeSpells(words: seq<string>, f: Feature) { exists i :: 0 <= i < |words| && Spells(words[i], f) }

  /** A list names a feature when some word of it does. */
  lemma {:induction false} NamesMeans(features: string, f: Feature)
    ensures Names(features, f) <==> SomeSpells(Split(features, ','), f)
  {
    var words := Split(features, ',');
    hide Named, Spells;
    forall i | 0 <= i < |words|
      ensures Named(words[i]) == Some(f) <==> Spells(words[i], f)
    {
      NamedMeans(words[i], f);
    }
  }

  lemma {:induction false} NamedMeans(text: string, f: Feature)
    ensures Named(text) == Some(f) <==> Spells(text, f)
  {
    hide ToLower, Trim;
    assert |"tasks"| == 5 && |"ospatch"| == 7 && |"guestpolicies"| == 13 && |"ospackage"| == 9 && |"osinventory"| == 11;
  }

  lemma {:induction false} ToLowerMeans(s: string)
    ensures |ToLower(s)| == |s|
    ensures forall k :: 0 <= k < |s| && 'A' <= s[k] <= 'Z' ==> ToLower(s)[k] as int == s[k] as int + 32
    ensures forall k :: 0 <= k < |s| && ' ' <= s[k] <= '~' && !('A' <= s[k] <= 'Z') ==> ToLower(s)[k] == s[k]
  {
    if s != "" {
      ToLowerMeans(s[1..]);
      assert forall k :: 0 < k < |s| ==> s[k] == s[1..][k - 1] && ToLower(s)[k] == ToLower(s[1..])[k - 1];
    }
  }

  /** What one level of metadata makes of a flag, read from the attribute that weighs most. */
  function Level(a: Attributes, f: Feature, below: bool): bool {
    if Names(a.disabled, f) then false
    else if a.osConfig != "" then ParseBool(a.osConfig)
    else if Names(a.preRelease, f) || Names(a.preReleaseOld, f) then true
    else if f.Inventory? && a.inventory != "" then ParseBool(a.inventory)
    else if f.Inventory? && a.inventoryOld != "" then ParseBool(a.inventoryOld)
    else below
  }

  /** The instance weighs more than the project, and nothing is on by itself. */
  function Decided(project: Attributes, instance: Attributes, f: Feature): bool {
    Level(instance, f, Level(project, f, false))
  }

  lemma {:induction false} DecidedIsLast(project: Attributes, instance: Attributes, f: Feature)
    ensures Decided(project, instance, f) == Last(Layers(instance), f, Last(Layers(project), f, false))
    ensures Decided(project, instance, f) == Last(Layers(project) + Layers(instance), f, false)
  {
    hide Names, Last, ParseBool;
    LastOfFive(Layers(project), f, false);
    LastOfFive(Layers(instance), f, Last(Layers(project), f, false));
    LastOfConcat(Layers(project), Layers(instance), f, false);
  }

  /**
   What the instance's attributes come to, one by one: its disabled list is beyond appeal, then its
   main switch counts, then its pre-release lists, then its inventory attributes, the old one alone.
   */
  lemma {:induction false} InstanceDecides(p: Attributes, a: Attributes, f: Feature)
    ensures var on := Last(Layers(p) + Layers(a), f, false);
            var listed := Names(a.preRelease, f) || Names(a.preReleaseOld, f);
            var alone := f.Inventory? && !Names(a.disabled, f) && a.osConfig == "" && !listed;
            && (Names(a.disabled, f) ==> !on)
            && (!Names(a.disabled, f) && a.osConfig != "" ==> (on <==> a.osConfig in TRUE_WORDS))
            && (!Names(a.disabled, f) && a.osConfig == "" && listed ==> on)
            && (alone && a.inventory != "" ==> (on <==> a.inventory in TRUE_WORDS))
            && (alone && a.inventory == "" && a.inventoryOld != "" ==> (on <==> a.inventoryOld in TRUE_WORDS))
            && (p == Attributes("", "", "", "", "", "") && a == p ==> !on)
  {
    hide Names, Last;
    DecidedIsLast(p, a, f);
    NothingNamed(f);
  }

  /** The default shows through exactly when no layer mentions the feature. */
  lemma {:induction false} DefaultShowsThrough(layers: seq<Layer>, f: Feature)
    ensures Last(layers, f, true) == Last(layers, f, false) <==> Mentions(layers, f)
  {
    hide Says;
    if layers == [] {
      assert Last(layers, f, true) && !Last(layers, f, false);
    } else {
      var n := |layers| - 1;
      var front := layers[..n];
      DefaultShowsThrough(front, f);
      assert Mentions(layers, f) <==> Mentions(front, f) || Says(layers[n], f).Some? by {
        MentionsPush(layers, f);
      }
    }
  }

  lemma {:induction false} MentionsPush(layers: seq<Layer>, f: Feature)
    requires layers != []
    ensures Mentions(layers, f) <==>
            Mentions(layers[..|layers| - 1], f) || Says(layers[|layers| - 1], f).Some?
  {
    hide Says;
    var n := |layers| - 1;
    var front := layers[..n];
    if Mentions(front, f) {
      var i :| 0 <= i < |front| && Says(front[i], f).Some?;
      assert layers[i] == front[i];
    }
    if Mentions(layers, f) && !Says(layers[n], f).Some? {
      var i :| 0 <= i < |layers| && Says(layers[i], f).Some?;
      assert front[i] == layers[i];
    }
  }

  /**
   The instance overrides the project: its metadata makes the flag independent of every
   project setting exactly when it mentions the feature.
  */
  lemma {:induction false} InstanceOverrides(instance: Attributes, f: Feature)
    ensures (forall p: Attributes, q: Attributes ::
               Last(Layers(p) + Layers(instance), f, false) == Last(Layers(q) + Layers(instance), f, false))
            <==> Mentions(Layers(instance), f)
  {
    var none := Attributes("", "", "", "", "", "");
    var on := none.(osConfig := "true");
    var off := none.(osConfig := "false");
    DefaultShowsThrough(Layers(instance), f);
    SwitchedTo(on, f, true);
    SwitchedTo(off, f, false);
    hide Layers, Last, Mentions;
    forall p: Attributes
      ensures Last(Layers(p) + Layers(instance), f, false) == Last(Layers(instance), f, Last(Layers(p), f, false))
    {
      LastOfConcat(Layers(p), Layers(instance), f, false);
    }
    if Mentions(Layers(instance), f) {
      forall b: bool
        ensures Last(Layers(instance), f, b) == Last(Layers(instance), f, false)
      {
      }
    } else {
      assert Last(Layers(on) + Layers(instance), f, false) != Last(Layers(off) + Layers(instance), f, false);
    }
  }

  lemma {:induction false} SwitchedTo(a: Attributes, f: Feature, b: bool)
    requires a == Attributes("", "", "", "", if b then "true" else "false", "")
    ensures Last(Layers(a), f, false) == b
  {
    NothingNamed(f);
    LastOfFive(Layers(a), f, false);
  }

  lemma {:induction false} NothingNamed(f: Feature)
    ensures !Names("", f)
  {
    assert Split("", ',') == [""];
    assert Trim("", WhiteSpace) == "";
    assert Named("") == None;
  }
}
