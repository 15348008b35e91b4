/**
 * The cyber awareness page: the awareness data fetched from the backend (or a
 * fixed fallback when the request fails), the choice of which keys become
 * sections, and each collapsible section's configuration and open state.
 */
module CyberAwareness {
  import opened Wrappers
  import opened JsText
  import opened JsArray

  /** The icons a section header can carry. */
  datatype Icon =
    | AlertTriangle | CreditCard | Shield | ShoppingCart | Users | Briefcase
    | BookOpen | Heart | Lock | Globe | Smartphone | CheckCircle

  datatype SectionConfig = SectionConfig(title: string, icon: Icon, color: string)

  /** The configured sections, by data key. */
  const SectionConfigs: map<string, SectionConfig> := map[
    "trending_scams" := SectionConfig("Trending Scams", AlertTriangle, "text-red-500"),
    "red_flags" := SectionConfig("Red Flags to Identify Fraud", AlertTriangle, "text-orange-500"),
    "safe_banking_practices" := SectionConfig("Safe Banking Practices", CreditCard, "text-green-600"),
    "phishing_detection_guide" := SectionConfig("Phishing Detection Guide", Shield, "text-blue-500"),
    "online_shopping_scam_patterns" := SectionConfig("Online Shopping Scam Patterns", ShoppingCart, "text-purple-500"),
    "social_engineering_tactics" := SectionConfig("Social Engineering Tactics", Users, "text-indigo-500"),
    "corporate_cyber_risks" := SectionConfig("Corporate Cyber Risks", Briefcase, "text-gray-600"),
    "student_cyber_threats" := SectionConfig("Student Cyber Threats", BookOpen, "text-teal-500"),
    "child_safety_guidelines" := SectionConfig("Child Safety Guidelines", Heart, "text-pink-500"),
    "privacy_protection_steps" := SectionConfig("Privacy Protection Steps", Lock, "text-blue-600"),
    "fake_job_offer_signals" := SectionConfig("Fake Job Offer Signals", Briefcase, "text-yellow-600"),
    "crypto_scam_patterns" := SectionConfig("Crypto Scam Patterns", Globe, "text-indigo-400"),
    "banking_fraud_patterns" := SectionConfig("Banking Fraud Patterns", CreditCard, "text-red-600"),
    "sim_and_mobile_security" := SectionConfig("SIM & Mobile Security", Smartphone, "text-green-500"),
    "romance_scam_indicators" := SectionConfig("Romance Scam Indicators", Heart, "text-pink-600"),
    "cyber_harassment_patterns" := SectionConfig("Cyber Harassment Patterns", Users, "text-red-500"),
    "safety_best_practices" := SectionConfig("Safety Best Practices", CheckCircle, "text-green-500"),
    "learning_resources" := SectionConfig("Learning Resources", BookOpen, "text-blue-600")
  ]

  const FallbackColor := "text-gray-500"

  /** `SECTION_CONFIG[key] || { title: key.replace(/_/g, ' '), icon: Shield, ... }`. */
  function ConfigFor(key: string): (c: SectionConfig)
    ensures key in SectionConfigs ==> c == SectionConfigs[key]
    ensures key !in SectionConfigs ==> c.icon == Shield && c.color == FallbackColor
    ensures key !in SectionConfigs ==> |c.title| == |key| && '_' !in c.title
    ensures key !in SectionConfigs ==>
              forall i :: 0 <= i < |key| ==> c.title[i] == (if key[i] == '_' then ' ' else key[i])
  {
    if key in SectionConfigs then SectionConfigs[key]
    else
      var title := ReplaceUnderscores(key);
      assert forall i :: 0 <= i < |title| ==> title[i] != '_';
      SectionConfig(title, Shield, FallbackColor)
  }

  /** A configured key uses its table entry; an unknown one its spaced-out name. */
  lemma ConfigScenarios()
    ensures ConfigFor("trending_scams") == SectionConfig("Trending Scams", AlertTriangle, "text-red-500")
    ensures ConfigFor("deepfake_alerts") == SectionConfig("deepfake alerts", Shield, FallbackColor)
  {
    assert "deepfake_alerts" !in SectionConfigs;
    assert ReplaceUnderscores("deepfake_alerts") == "deepfake alerts";
  }

  /** A JSON value of the response, as far as the page tells values apart. */
  datatype JsonValue = JString(s: string) | JArray(items: seq<JsonValue>) | JOther

  /** One member of the response object. */
  datatype Entry = Entry(key: string, value: JsonValue)

  /** The response object, its members in `Object.keys` order. A parsed JSON
      object has distinct keys; the type does not enforce it, so on a sequence
      with a repeated key `Lookup` takes the first member and `SectionKeys` lists
      each array member. */
  type AwarenessData = seq<Entry>

  predicate IsArrayEntry(e: Entry) {
    e.value.JArray?
  }

  /** The keys of some members, in order. */
  function Keys(entries: seq<Entry>): (keys: seq<string>)
    ensures |keys| == |entries| && forall k :: 0 <= k < |keys| ==> keys[k] == entries[k].key
  {
    if entries == [] then [] else [entries[0].key] + Keys(entries[1..])
  }

  /** The keys that become sections: those whose value is an array, in order. */
  function SectionKeys(data: AwarenessData): (keys: seq<string>)
    ensures |keys| <= |data|
  {
    Keys(Filter(data, IsArrayEntry))
  }

  /** A key is among the keys of the members kept by `p` exactly when some member
      with that key passes `p`. */
  lemma FilteredKeysIff(data: AwarenessData, p: Entry -> bool, key: string)
    ensures key in Keys(Filter(data, p)) <==> exists i :: 0 <= i < |data| && data[i].key == key && p(data[i])
  {
    if key in Keys(Filter(data, p)) {
      var i := KeptKeyWitness(data, p, key);
    }
    if exists i :: 0 <= i < |data| && data[i].key == key && p(data[i]) {
      var i :| 0 <= i < |data| && data[i].key == key && p(data[i]);
      MemberKeyIsKept(data, p, i);
    }
  }

  /** The member behind the k-th kept key. */
  lemma KeptKeyAt(data: AwarenessData, p: Entry -> bool, k: int) returns (i: int)
    requires 0 <= k < |Filter(data, p)|
    ensures 0 <= i < |data| && data[i].key == Keys(Filter(data, p))[k] && p(data[i])
  {
    var e := Filter(data, p)[k];
    FilterMembership(data, p, e);
    i :| 0 <= i < |data| && data[i] == e;
  }

  /** A member behind a kept key. */
  lemma KeptKeyWitness(data: AwarenessData, p: Entry -> bool, key: string) returns (i: int)
    requires key in Keys(Filter(data, p))
    ensures 0 <= i < |data| && data[i].key == key && p(data[i])
  {
    var keys := Keys(Filter(data, p));
    var k :| 0 <= k < |keys| && keys[k] == key;
    i := KeptKeyAt(data, p, k);
  }

  /** A member that passes `p` has its key kept. */
  lemma MemberKeyIsKept(data: AwarenessData, p: Entry -> bool, i: int)
    requires 0 <= i < |data| && p(data[i])
    ensures data[i].key in Keys(Filter(data, p))
  {
    var kept := Filter(data, p);
    FilterMembership(data, p, data[i]);
    var k :| 0 <= k < |kept| && kept[k] == data[i];
    assert Keys(kept)[k] == data[i].key;
  }

  /** A key becomes a section exactly when some member with that key holds an
      array; a key such as `title` holding a string is skipped. */
  lemma SectionKeysIff(data: AwarenessData, key: string)
    ensures key in SectionKeys(data) <==> exists i :: 0 <= i < |data| && data[i].key == key && IsArrayEntry(data[i])
  {
    FilteredKeysIff(data, IsArrayEntry, key);
  }

  /** The keys kept by `p` follow the members' order: the k-th kept key is the
      key of the k-th member passing `p`, and every member passing `p` is one of
      them. */
  lemma KeysInOrder(data: AwarenessData, p: Entry -> bool)
    ensures var keys, idx := Keys(Filter(data, p)), SelectedIndices(data, p);
      && |keys| == |idx|
      && (forall k :: 0 <= k < |idx| ==> keys[k] == data[idx[k]].key)
      && (forall k, l :: 0 <= k < l < |idx| ==> idx[k] < idx[l])
      && (forall j :: 0 <= j < |data| ==> (j in idx <==> p(data[j])))
  {
    FilterIsOrderedSelection(data, p);
  }

  /** The sections keep the order of the members: the k-th section key is the key
      of the k-th array member, and every array member has a section. */
  lemma SectionKeysInOrder(data: AwarenessData)
    ensures var keys, idx := SectionKeys(data), SelectedIndices(data, IsArrayEntry);
      && |keys| == |idx|
      && (forall k :: 0 <= k < |idx| ==> keys[k] == data[idx[k]].key)
      && (forall k, l :: 0 <= k < l < |idx| ==> idx[k] < idx[l])
      && (forall j :: 0 <= j < |data| ==> (j in idx <==> IsArrayEntry(data[j])))
  {
    KeysInOrder(data, IsArrayEntry);
  }

  /** `if (!data || data.length === 0) return null`: the page passes arrays only,
      which are always truthy, so a section renders exactly when it has items. */
  predicate SectionRenders(items: seq<JsonValue>) {
    |items| > 0
  }

  predicate IsShownEntry(e: Entry) {
    e.value.JArray? && SectionRenders(e.value.items)
  }

  /** The sections that show on the page: the array members with at least one
      item, in order. An empty array still becomes a section component, which
      renders nothing. */
  function ShownSections(data: AwarenessData): (keys: seq<string>)
    ensures |keys| <= |SectionKeys(data)|
  {
    ShownAmongSections(data);
    Keys(Filter(data, IsShownEntry))
  }

  /** Every shown member is an array member, so there are no more shown sections
      than section components. */
  lemma {:induction false} ShownAmongSections(data: AwarenessData)
    ensures |Filter(data, IsShownEntry)| <= |Filter(data, IsArrayEntry)|
  {
    if data != [] {
      ShownAmongSections(data[1..]);
    }
  }

  /** A key shows as a section exactly when some member with that key holds a
      non-empty array. */
  lemma ShownSectionsIff(data: AwarenessData, key: string)
    ensures key in ShownSections(data) <==>
              exists i :: 0 <= i < |data| && data[i].key == key && data[i].value.JArray? && |data[i].value.items| > 0
  {
    FilteredKeysIff(data, IsShownEntry, key);
  }

  /** The shown sections keep the order of the members: the k-th shown key is
      the key of the k-th member holding a non-empty array, and every such member
      shows. */
  lemma ShownSectionsInOrder(data: AwarenessData)
    ensures var keys, idx := ShownSections(data), SelectedIndices(data, IsShownEntry);
      && |keys| == |idx|
      && (forall k :: 0 <= k < |idx| ==> keys[k] == data[idx[k]].key)
      && (forall k, l :: 0 <= k < l < |idx| ==> idx[k] < idx[l])
      && (forall j :: 0 <= j < |data| ==> (j in idx <==> IsShownEntry(data[j])))
  {
    KeysInOrder(data, IsShownEntry);
  }

  /** An empty list becomes a section component but shows nothing. */
  lemma EmptyListShowsNothing(key: string)
    ensures SectionKeys([Entry(key, JArray([]))]) == [key]
    ensures ShownSections([Entry(key, JArray([]))]) == []
  {
    var data := [Entry(key, JArray([]))];
    assert data[1..] == [];
    assert Filter(data, IsArrayEntry) == data;
    assert Filter(data, IsShownEntry) == [];
  }

  /** The value of the first member named `key`, if any. */
  function Lookup(data: AwarenessData, key: string): (v: Option<JsonValue>)
    ensures v.Some? <==> exists i :: 0 <= i < |data| && data[i].key == key
    ensures v.Some? ==> exists i :: 0 <= i < |data| && data[i] == Entry(key, v.value)
  {
    if data == [] then None
    else if data[0].key == key then Some(data[0].value)
    else
      var v := Lookup(data[1..], key);
      assert forall i :: 1 <= i < |data| ==> data[1..][i - 1] == data[i];
      v
  }

  const DefaultHeading := "Cyber Awareness"

  /** `data?.title || "Cyber Awareness"` for a title that is a string. */
  function Heading(data: Option<AwarenessData>): (h: string)
    ensures h != ""
    ensures h == DefaultHeading || (data.Some? && Lookup(data.value, "title") == Some(JString(h)))
    ensures (data.Some? && Lookup(data.value, "title").Some? && Lookup(data.value, "title").value.JString?
             && Lookup(data.value, "title").value.s != "") ==> h == Lookup(data.value, "title").value.s
  {
    if data.None? then DefaultHeading
    else match Lookup(data.value, "title")
      case Some(JString(s)) => if s != "" then s else DefaultHeading
      case _ => DefaultHeading
  }

  function Strings(ss: seq<string>): (vs: seq<JsonValue>)
    ensures |vs| == |ss| && forall i :: 0 <= i < |ss| ==> vs[i] == JString(ss[i])
  {
    seq(|ss|, i requires 0 <= i < |ss| => JString(ss[i]))
  }

  /** The data shown when the request fails. */
  const Fallback: AwarenessData := [
    Entry("title", JString("Cyber Safety Awareness")),
    Entry("trending_scams", JArray(Strings(["UPI Refund Scam", "Parcel Stuck at Customs"]))),
    Entry("red_flags", JArray(Strings(["Urgent pressure", "Unverified links"]))),
    Entry("safe_banking_practices", JArray(Strings(["Never share OTP", "Change PIN regularly"])))
  ]

  /** The array members of the fallback are its last three members, and each of
      them has items. */
  lemma FallbackArrayMembers()
    ensures Filter(Fallback, IsArrayEntry) == Fallback[1..]
    ensures Filter(Fallback, IsShownEntry) == Fallback[1..]
  {
    var rest := Fallback[1..];
    assert Fallback == [Fallback[0]] + rest;
    forall i | 0 <= i < |rest| ensures IsArrayEntry(rest[i]) && IsShownEntry(rest[i]) {
    }
    FilterAllPass(rest, IsArrayEntry);
    FilterAppend([Fallback[0]], rest, IsArrayEntry);
    assert Filter([Fallback[0]], IsArrayEntry) == [];
    FilterAllPass(rest, IsShownEntry);
    FilterAppend([Fallback[0]], rest, IsShownEntry);
    assert Filter([Fallback[0]], IsShownEntry) == [];
  }

  /** The sections of the fallback, in order, all of them shown. */
  lemma FallbackSectionKeys()
    ensures SectionKeys(Fallback) == ["trending_scams", "red_flags", "safe_banking_practices"]
    ensures ShownSections(Fallback) == SectionKeys(Fallback)
  {
    FallbackArrayMembers();
  }

  /** The fallback's heading is its own title. */
  lemma FallbackHeading()
    ensures Heading(Some(Fallback)) == "Cyber Safety Awareness"
  {
    assert Fallback[0] == Entry("title", JString("Cyber Safety Awareness"));
    assert Lookup(Fallback, "title") == Some(JString("Cyber Safety Awareness"));
  }

  /** On the fallback the heading is its title and the three lists become three
      configured sections in order, all of them shown; `title` is skipped. */
  lemma FallbackScenario()
    ensures Heading(Some(Fallback)) == "Cyber Safety Awareness"
    ensures SectionKeys(Fallback) == ["trending_scams", "red_flags", "safe_banking_practices"]
    ensures forall k :: k in SectionKeys(Fallback) ==> k in SectionConfigs
    ensures ShownSections(Fallback) == SectionKeys(Fallback)
  {
    FallbackHeading();
    FallbackSectionKeys();
    assert "trending_scams" in SectionConfigs && "red_flags" in SectionConfigs;
    assert "safe_banking_practices" in SectionConfigs;
  }

  /** One collapsible section. */
  class CollapsibleSection {
    const key: string
    const items: seq<JsonValue>
    var isOpen: bool

    /** Every section starts closed. */
    constructor(key: string, items: seq<JsonValue>)
      ensures this.key == key && this.items == items && !isOpen
    {
      this.key := key;
      this.items := items;
      isOpen := false;
    }

    /** The header click flips `isOpen`. */
    method Toggle()
      modifies this
      ensures isOpen == !old(isOpen)
    {
      isOpen := !isOpen;
    }
  }

  class AwarenessPage {
    var data: Option<AwarenessData>
    var loading: bool

    /** No data yet, and loading. */
    constructor()
      ensures data == None && loading
    {
      data := None;
      loading := true;
    }

    /** The request settles: the response, or the fallback when it failed; loading
        ends either way. */
    method FetchSettled(result: Result<AwarenessData>)
      modifies this
      ensures data == Some(if result.Ok? then result.value else Fallback)
      ensures !loading
    {
      match result {
        case Ok(response) => data := Some(response);
        case Err(_) => data := Some(Fallback);
      }
      loading := false;
    }

    /** The section components mounted once loading is over: one per array member,
        in order. */
    function Sections(): (keys: seq<string>)
      reads this
      ensures loading || data.None? ==> keys == []
      ensures !loading && data.Some? ==> keys == SectionKeys(data.value)
    {
      if loading || data.None? then [] else SectionKeys(data.value)
    }

    /** The sections visible once loading is over: the non-empty lists, in order. */
    function Shown(): (keys: seq<string>)
      reads this
      ensures loading || data.None? ==> keys == []
      ensures !loading && data.Some? ==> keys == ShownSections(data.value)
      ensures |keys| <= |Sections()|
    {
      if loading || data.None? then [] else ShownSections(data.value)
    }
  }
}
