/** Connection settings as NetworkManager exchanges them: section, key, value. */
module SettingsDict {
  import opened Wrappers
  import opened Errors

  // ----- Values

  /** A D-Bus value.  `Boxed` is a variant inside a variant; `Foreign` stands for a value of
      a type the program never looks into. */
  datatype Value =
    | Str(text: string)
    | Bool(flag: bool)
    | U8(byte: u8)
    | U32(word: u32)
    | I32(signed: i32)
    | U64(long: u64)
    | Arr(items: seq<Value>)
    | Dict(entries: seq<(Value, Value)>)
    | Boxed(inner: Value)
    | Foreign(tag: nat)

  function Unbox(v: Value): (r: Value)
    ensures !r.Boxed?
  {
    if v.Boxed? then Unbox(v.inner) else v
  }

  method UnboxVariant(v: Value) returns (value: Value)
    ensures value == Unbox(v)
  {
    value := v;
    while value.Boxed?
      invariant Unbox(value) == Unbox(v)
      decreases value
    {
      value := value.inner;
    }
  }

  /** `v` behind `depth` layers of variants. */
  function Box(v: Value, depth: nat): (r: Value) {
    if depth == 0 then v else Boxed(Box(v, depth - 1))
  }

  lemma {:induction false} UnboxBox(v: Value, depth: nat)
    ensures Unbox(Box(v, depth)) == Unbox(v)
  {
    if depth > 0 {
      UnboxBox(v, depth - 1);
    }
  }

  function Bytes(bytes: seq<u8>): (v: Value)
    ensures v.Arr? && |v.items| == |bytes| && forall i :: 0 <= i < |bytes| ==> v.items[i] == U8(bytes[i])
  {
    Arr(seq(|bytes|, i requires 0 <= i < |bytes| => U8(bytes[i])))
  }

  function Strings(texts: seq<string>): (v: Value)
    ensures v.Arr? && |v.items| == |texts| && forall i :: 0 <= i < |texts| ==> v.items[i] == Str(texts[i])
  {
    Arr(seq(|texts|, i requires 0 <= i < |texts| => Str(texts[i])))
  }

  /** The strings among the items, through any boxing; other items are passed over. */
  function TextsOf(items: seq<Value>): (texts: seq<string>) {
    if items == [] then []
    else (if Unbox(items[0]).Str? then [Unbox(items[0]).text] else []) + TextsOf(items[1..])
  }

  lemma {:induction false} TextsOfConcat(a: seq<Value>, b: seq<Value>)
    ensures TextsOf(a + b) == TextsOf(a) + TextsOf(b)
  {
    if a == [] {
      assert a + b == b;
    } else {
      assert (a + b)[1..] == a[1..] + b;
      TextsOfConcat(a[1..], b);
    }
  }

  lemma {:induction false} TextsOfStrings(texts: seq<string>)
    ensures TextsOf(Strings(texts).items) == texts
  {
    if texts != [] {
      TextsOfStrings(texts[1..]);
      assert Strings(texts).items[1..] == Strings(texts[1..]).items;
      assert texts == [texts[0]] + texts[1..];
    }
  }

  // ----- Settings

  type Section = map<string, Value>

  type Settings = map<string, Section>

  /** `settings.get(section).cloned().unwrap_or_default()`. */
  function SectionOf(settings: Settings, section: string): Section {
    if section in settings then settings[section] else map[]
  }

  function Get(section: Section, key: string): Option<Value> {
    if key in section then Some(section[key]) else None
  }

  function Lookup(settings: Settings, section: string, key: string): Option<Value> {
    Get(SectionOf(settings, section), key)
  }

  /** `settings.entry(section).or_default().insert(key, value)`. */
  function Insert(settings: Settings, section: string, key: string, value: Value): Settings {
    settings[section := SectionOf(settings, section)[key := value]]
  }

  /** A section with at most one entry. */
  function Entry(key: string, value: Option<Value>): Section {
    if value.Some? then map[key := value.value] else map[]
  }

  function OptionalStr(text: Option<string>): Option<Value> {
    if text.Some? then Some(Str(text.value)) else None
  }

  function OrElse(v: Option<Value>, w: Option<Value>): Option<Value> {
    if v.Some? then v else w
  }

  lemma GetPlus(section: Section, key: string, value: Option<Value>, other: string)
    ensures Get(section + Entry(key, value), other) ==
            if other == key then OrElse(value, Get(section, other)) else Get(section, other)
  {
  }

  // ----- Merging

  /** Every section of either side, the entries of `delta` winning. */
  function Merged(settings: Settings, delta: Settings): Settings {
    map section | section in settings.Keys + delta.Keys :: SectionOf(settings, section) + SectionOf(delta, section)
  }

  /** Copies `entries` into `section`, in no particular order. */
  method InsertAll(section: Section, entries: Section) returns (target: Section)
    ensures target == section + entries
  {
    target := section;
    var pending := entries.Keys;
    while pending != {}
      invariant pending <= entries.Keys
      invariant target == section + (entries - pending)
    {
      var key :| key in pending;
      target := target[key := entries[key]];
      pending := pending - {key};
    }
  }

  /** The settings of one profile, updated in place. */
  class Profile {
    var settings: Settings

    constructor (settings: Settings)
      ensures this.settings == settings
    {
      this.settings := settings;
    }

    /** The sections of the delta come in no particular order either. */
    method MergeSettingsPatchDelta(delta: Settings)
      modifies this`settings
      ensures settings == Merged(old(settings), delta)
    {
      var pending := delta.Keys;
      MergeNothing(settings);
      assert delta - delta.Keys == map[];
      while pending != {}
        invariant pending <= delta.Keys
        invariant settings == Merged(old(settings), delta - pending)
      {
        var section :| section in pending;
        var target := InsertAll(SectionOf(settings, section), delta[section]);
        MergeOneMore(old(settings), delta, pending, section);
        settings := settings[section := target];
        pending := pending - {section};
      }
      assert delta - {} == delta;
    }
  }

  lemma MergeNothing(settings: Settings)
    ensures Merged(settings, map[]) == settings
  {
    assert forall section :: section in settings ==> settings[section] + map[] == settings[section];
  }

  lemma MergeOneMore(settings: Settings, delta: Settings, pending: set<string>, section: string)
    requires pending <= delta.Keys && section in pending
    ensures var sofar := Merged(settings, delta - pending);
            sofar[section := SectionOf(sofar, section) + delta[section]] == Merged(settings, delta - (pending - {section}))
  {
    var sofar := Merged(settings, delta - pending);
    assert SectionOf(sofar, section) == SectionOf(settings, section);
    assert forall s :: s != section ==> SectionOf(delta - pending, s) == SectionOf(delta - (pending - {section}), s);
  }

  // ----- The algebra of merging

  /** Every lookup in a merge is answered by the delta if it can be, and by the original
      otherwise; the sections are those of both. */
  lemma MergeLookup(settings: Settings, delta: Settings, section: string, key: string)
    ensures Merged(settings, delta).Keys == settings.Keys + delta.Keys
    ensures Lookup(Merged(settings, delta), section, key) ==
            if Lookup(delta, section, key).Some? then Lookup(delta, section, key) else Lookup(settings, section, key)
  {
  }

  lemma SameSection(a: Section, b: Section)
    requires forall key :: Get(a, key) == Get(b, key)
    ensures a == b
  {
    assert forall key :: key in a ==> Get(b, key) == Some(a[key]);
    assert forall key :: key in b ==> Get(a, key) == Some(b[key]);
  }

  /** Settings with the same sections and the same lookups are the same. */
  lemma SameLookups(a: Settings, b: Settings)
    requires a.Keys == b.Keys && forall section, key :: Lookup(a, section, key) == Lookup(b, section, key)
    ensures a == b
  {
    forall section | section in a
      ensures a[section] == b[section]
    {
      forall key
        ensures Get(a[section], key) == Get(b[section], key)
      {
        assert Lookup(a, section, key) == Lookup(b, section, key);
      }
      SameSection(a[section], b[section]);
    }
  }

  /** Merging a delta again changes nothing. */
  lemma MergeIdempotent(settings: Settings, delta: Settings)
    ensures Merged(Merged(settings, delta), delta) == Merged(settings, delta)
  {
    forall section, key
      ensures Lookup(Merged(Merged(settings, delta), delta), section, key) == Lookup(Merged(settings, delta), section, key)
    {
      MergeLookup(settings, delta, section, key);
      MergeLookup(Merged(settings, delta), delta, section, key);
    }
    SameLookups(Merged(Merged(settings, delta), delta), Merged(settings, delta));
  }

  /** Merging two deltas one after the other is merging their merge. */
  lemma MergeAssociative(settings: Settings, first: Settings, second: Settings)
    ensures Merged(Merged(settings, first), second) == Merged(settings, Merged(first, second))
  {
    var a, b := Merged(Merged(settings, first), second), Merged(settings, Merged(first, second));
    forall section, key
      ensures Lookup(a, section, key) == Lookup(b, section, key)
    {
      MergeLookup(settings, first, section, key);
      MergeLookup(Merged(settings, first), second, section, key);
      MergeLookup(first, second, section, key);
      MergeLookup(settings, Merged(first, second), section, key);
    }
    SameLookups(a, b);
  }

  ghost predicate Agree(first: Settings, second: Settings) {
    forall section, key :: (Lookup(first, section, key).Some? && Lookup(second, section, key).Some?) ==>
      Lookup(first, section, key) == Lookup(second, section, key)
  }

  lemma MergeTwiceLookup(settings: Settings, first: Settings, second: Settings, section: string, key: string)
    ensures Lookup(Merged(Merged(settings, first), second), section, key) ==
            if Lookup(second, section, key).Some? then Lookup(second, section, key)
            else if Lookup(first, section, key).Some? then Lookup(first, section, key)
            else Lookup(settings, section, key)
  {
  }

  lemma AgreeingDeltasCommute(settings: Settings, first: Settings, second: Settings)
    requires Agree(first, second)
    ensures Merged(Merged(settings, first), second) == Merged(Merged(settings, second), first)
  {
    forall section, key
      ensures Lookup(Merged(Merged(settings, first), second), section, key)
           == Lookup(Merged(Merged(settings, second), first), section, key)
    {
      MergeTwiceLookup(settings, first, second, section, key);
      MergeTwiceLookup(settings, second, first, section, key);
    }
    SameLookups(Merged(Merged(settings, first), second), Merged(Merged(settings, second), first));
  }

  /** Two deltas can be merged in either order exactly when they agree wherever both speak. */
  lemma MergeCommutesExactly(settings: Settings, first: Settings, second: Settings)
    ensures Merged(Merged(settings, first), second) == Merged(Merged(settings, second), first) <==> Agree(first, second)
  {
    if Merged(Merged(settings, first), second) == Merged(Merged(settings, second), first) {
      forall section, key | Lookup(first, section, key).Some? && Lookup(second, section, key).Some?
        ensures Lookup(first, section, key) == Lookup(second, section, key)
      {
        MergeTwiceLookup(settings, first, second, section, key);
        MergeTwiceLookup(settings, second, first, section, key);
      }
    }
    if Agree(first, second) {
      AgreeingDeltasCommute(settings, first, second);
    }
  }
}
