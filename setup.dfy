/**
  The configuration store and the config-file line classifier
  (`Config` in src/misc/setup.rs).

  The source indexes properties by borrowed references into its own
  section list; here the index maps each key to the position of the
  property instead: which section, and which property within it.
 */
module Setup {
  import opened Wrappers
  import opened Schema
  import J = Json
  import Text

  /** Where a property lives: section number, then property number within it. */
  datatype Slot = Slot(section: nat, property: nat)

  /** `a` comes strictly before `b` in the order properties are loaded. */
  predicate Before(a: Slot, b: Slot) {
    a.section < b.section || (a.section == b.section && a.property < b.property)
  }

  /**
    `slot` names a property of a `PROPERTIES` section of `secs`, and `key`
    is that section's name followed by the property's name.
   */
  ghost predicate KeyAt(secs: seq<Section>, slot: Slot, key: string) {
    && slot.section < |secs|
    && secs[slot.section].sectionType.Properties?
    && slot.property < |secs[slot.section].sectionType.props|
    && secs[slot.section].name + secs[slot.section].sectionType.props[slot.property].name == key
  }

  /** Every key of the index leads to a property stored under that key. */
  ghost predicate IndexSound(secs: seq<Section>, index: map<string, Slot>) {
    forall key :: key in index ==> KeyAt(secs, index[key], key)
  }

  /**
    What loading sections from number `n` on did to an index that was
    `index0`: it is sound; every property of those sections can be found
    under its key, at its own slot or a later one among them (later
    insertions win); no key was dropped; and a key keeps its old slot
    unless one of the new sections took it.
   */
  ghost predicate Indexed(secs: seq<Section>, index: map<string, Slot>, index0: map<string, Slot>, n: nat) {
    && IndexSound(secs, index)
    && (forall slot: Slot, key :: n <= slot.section && KeyAt(secs, slot, key) ==>
          key in index && n <= index[key].section && !Before(index[key], slot))
    && (forall key :: key in index0 ==> key in index)
    && (forall key :: key in index ==> (key in index0 && index[key] == index0[key]) || n <= index[key].section)
  }

  /** The index after inserting the properties `props` of section `si` in order. */
  function IndexProps(index: map<string, Slot>, si: nat, sectionName: string, props: seq<Property>): map<string, Slot> {
    if props == [] then index
    else
      var n := |props| - 1;
      IndexProps(index, si, sectionName, props[..n])[sectionName + props[n].name := Slot(si, n)]
  }

  /** The index after adding section `s` as section number `si`: `LINES` adds nothing. */
  function IndexSection(index: map<string, Slot>, si: nat, s: Section): map<string, Slot> {
    match s.sectionType
    case Properties(props) => IndexProps(index, si, s.name, props)
    case Lines(_) => index
  }

  /** The state `load_json` leaves behind, with the outcome it reports. */
  datatype LoadResult = LoadResult(status: Outcome<()>, sections: seq<Section>, index: map<string, Slot>)

  /** The outcome of `Section::new` for each section entry of the document, in order. */
  function SectionOutcomes(items: seq<(string, J.Json)>, valueList: seq<(string, J.Json)>): (outs: seq<Outcome<Section>>)
    ensures |outs| == |items|
    ensures forall i :: 0 <= i < |items| ==> outs[i] == SectionOf(items[i].0, items[i].1, valueList)
  {
    seq(|items|, i requires 0 <= i < |items| => SectionOf(items[i].0, items[i].1, valueList))
  }

  /**
    Appending and indexing the sections built from the entries, whose
    outcomes are `outs`, one at a time; the first entry that fails stops
    the load, keeping what was appended before it.
   */
  function LoadFrom(secs: seq<Section>, index: map<string, Slot>, outs: seq<Outcome<Section>>): LoadResult
    decreases |outs|
  {
    if outs == [] then LoadResult(Ok(()), secs, index)
    else
      match outs[0]
      case Ok(s) => LoadFrom(secs + [s], IndexSection(index, |secs|, s), outs[1..])
      case Fail => LoadResult(Fail, secs, index)
      case Panic(why) => LoadResult(Panic(why), secs, index)
  }

  /** `load_json` on a store holding `secs` and `index`. */
  function LoadJsonOf(secs: seq<Section>, index: map<string, Slot>, doc: J.Json): LoadResult {
    match J.AsObject(J.Get(doc, "value_list"))
    case None => LoadResult(Fail, secs, index)
    case Some(valueList) =>
      match J.AsObject(J.Get(doc, "sections"))
      case None => LoadResult(Fail, secs, index)
      case Some(items) => LoadFrom(secs, index, SectionOutcomes(items, valueList))
  }

  /** The line is a section header: `[`, then some text, then a `]`. */
  predicate IsWellFormedHeader(line: string) {
    |line| > 0 && line[0] == '[' && ']' in line
  }

  /** `line` opens section `name`: `[`, `name`, `]`, and `name` has no `]`. */
  ghost predicate IsHeader(line: string, name: string) {
    && |name| + 2 <= |line|
    && line[0] == '['
    && line[1..|name| + 1] == name
    && line[|name| + 1] == ']'
    && ']' !in name
  }

  class Config {
    var sections: seq<Section>
    var propertyMap: map<string, Slot>

    ghost predicate Valid()
      reads this
    {
      IndexSound(sections, propertyMap)
    }

    /** The empty store that `Config::new` loads the schema into. */
    constructor ()
      ensures Valid()
      ensures sections == [] && propertyMap == map[]
    {
      sections := [];
      propertyMap := map[];
    }

    /** `load_json`: append the document's sections, in the `sections` object's iteration order, and index their properties. */
    method LoadJson(doc: J.Json) returns (status: Outcome<()>)
      requires Valid()
      modifies this
      ensures Valid()
      ensures LoadResult(status, sections, propertyMap) == LoadJsonOf(old(sections), old(propertyMap), doc)
    {
      ghost var spec := LoadJsonOf(sections, propertyMap, doc);
      LoadJsonIndexes(sections, propertyMap, doc);
      var valueList := J.AsObject(J.Get(doc, "value_list"));
      if valueList.None? { return Fail; }
      var items := J.AsObject(J.Get(doc, "sections"));
      if items.None? { return Fail; }
      ghost var outs := SectionOutcomes(items.value, valueList.value);
      var i := 0;
      while i < |items.value|
        invariant 0 <= i <= |items.value|
        invariant LoadFrom(sections, propertyMap, outs[i..]) == spec
      {
        assert outs[i..][0] == outs[i];
        assert outs[i..][1..] == outs[i + 1..];
        var section := NewSection(items.value[i].0, items.value[i].1, valueList.value);
        if section.Fail? {
          assert LoadFrom(sections, propertyMap, outs[i..]) == LoadResult(Fail, sections, propertyMap);
          return Fail;
        }
        if section.Panic? {
          assert LoadFrom(sections, propertyMap, outs[i..]) == LoadResult(Panic(section.reason), sections, propertyMap);
          return Panic(section.reason);
        }
        ghost var next := IndexSection(propertyMap, |sections|, section.value);
        assert LoadFrom(sections, propertyMap, outs[i..]) == LoadFrom(sections + [section.value], next, outs[i + 1..]);
        var si := |sections|;
        sections := sections + [section.value];
        match section.value.sectionType {
          case Properties(props) => IndexProperties(si, section.value.name, props);
          case Lines(_) =>
        }
        assert propertyMap == next;
        i := i + 1;
      }
      status := Ok(());
    }

    /** The inner loop of `load_json`: insert each property of section `si` under its key. */
    method IndexProperties(si: nat, sectionName: string, props: seq<Property>)
      modifies this`propertyMap
      ensures propertyMap == IndexProps(old(propertyMap), si, sectionName, props)
    {
      var j := 0;
      while j < |props|
        invariant 0 <= j <= |props|
        invariant propertyMap == IndexProps(old(propertyMap), si, sectionName, props[..j])
      {
        assert props[..j + 1][..j] == props[..j];
        propertyMap := propertyMap[sectionName + props[j].name := Slot(si, j)];
        j := j + 1;
      }
      assert props[..j] == props;
    }

    /** `find_property`: the property stored under the key `section + property`. */
    function FindProperty(section: string, property: string): (r: Option<Property>)
      reads this
      requires Valid()
      ensures r.Some? <==> section + property in propertyMap
      ensures r.Some? ==>
        var slot := propertyMap[section + property];
        && KeyAt(sections, slot, section + property)
        && r.value == sections[slot.section].sectionType.props[slot.property]
    {
      var key := section + property;
      if key in propertyMap then
        var slot := propertyMap[key];
        Some(sections[slot.section].sectionType.props[slot.property])
      else
        None
    }

    /** `parse_property`: a stub that never yields a new section. */
    function ParseProperty(line: string, currentSection: string): (r: Option<string>)
      ensures r == None
    {
      None
    }

    /**
      `parse_section`: the text from the second character up to the first
      `]`; nothing when there is no `]`, when it comes first, or when the
      first character takes more than one byte.
     */
    function ParseSection(line: string): (r: Option<string>)
      ensures r.Some? <==> ']' in line && line[0] != ']' && Text.IsAscii(line[0])
      ensures r.Some? ==> |r.value| + 2 <= |line| && line[1..|r.value| + 1] == r.value
                          && line[|r.value| + 1] == ']' && ']' !in r.value
    {
      match Text.Find(line, ']')
      case None => None
      case Some(right) =>
        if 1 <= right && Text.IsAscii(line[0]) then Some(line[1..right]) else None
    }

    /**
      `parse_line`: the name of the section a line opens; comments, blank
      lines and `key=value` lines open none.
     */
    function ParseLine(line: string, currentSection: string): (r: Option<string>)
      ensures r.Some? <==> IsWellFormedHeader(line)
      ensures r.Some? ==> IsHeader(line, r.value)
    {
      match Text.Head(line)
      case None => None
      case Some(c) =>
        if c == '%' || c == '#' || c == ' ' then None
        else if c == '[' then ParseSection(line)
        else ParseProperty(line, currentSection)
    }

    /**
      The line loop of `parse`: the current section starts empty and
      becomes the name in each well-formed header in turn. The source
      discards it at the end; here it is returned.
     */
    method Parse(lines: seq<string>) returns (currentSection: string)
      ensures (forall i :: 0 <= i < |lines| ==> !IsWellFormedHeader(lines[i])) ==> currentSection == ""
      ensures forall i :: (0 <= i < |lines| && IsWellFormedHeader(lines[i])
                             && forall j :: i < j < |lines| ==> !IsWellFormedHeader(lines[j])) ==>
                IsHeader(lines[i], currentSection)
    {
      currentSection := "";
      var k := 0;
      while k < |lines|
        invariant 0 <= k <= |lines|
        invariant (forall i :: 0 <= i < k ==> !IsWellFormedHeader(lines[i])) ==> currentSection == ""
        invariant forall i :: (0 <= i < k && IsWellFormedHeader(lines[i])
                                 && forall j :: i < j < k ==> !IsWellFormedHeader(lines[j])) ==>
                    IsHeader(lines[i], currentSection)
      {
        match ParseLine(lines[k], currentSection) {
          case None =>
          case Some(s) => currentSection := s;
        }
        k := k + 1;
      }
    }
  }

  // ---------------------------------------------------------------------
  // Properties of loading

  /**
    Inserting properties keeps every old key, and each key the index then
    holds is either untouched or at a slot of the section whose name
    followed by that property's name is the key.
   */
  lemma {:induction false} IndexPropsSlots(index: map<string, Slot>, si: nat, name: string, props: seq<Property>)
    ensures var r := IndexProps(index, si, name, props);
      && (forall key :: key in index ==> key in r)
      && (forall key :: key in r ==>
            (key in index && r[key] == index[key])
            || (r[key].section == si && r[key].property < |props| && name + props[r[key].property].name == key))
    decreases |props|
  {
    if props != [] {
      var n := |props| - 1;
      var init := props[..n];
      IndexPropsSlots(index, si, name, init);
      var prev := IndexProps(index, si, name, init);
      var r := IndexProps(index, si, name, props);
      var newKey := name + props[n].name;
      assert r == prev[newKey := Slot(si, n)];
      forall key | key in r && key != newKey && !(key in index && r[key] == index[key])
        ensures r[key].section == si && r[key].property < |props| && name + props[r[key].property].name == key
      {
        assert r[key] == prev[key];
        assert init[r[key].property] == props[r[key].property];
      }
    }
  }

  /** After inserting properties, each one's key sits at its own slot or a later one. */
  lemma {:induction false} IndexPropsFinds(index: map<string, Slot>, si: nat, name: string, props: seq<Property>)
    ensures var r := IndexProps(index, si, name, props);
      forall p :: 0 <= p < |props| ==>
        name + props[p].name in r
        && r[name + props[p].name].section == si
        && p <= r[name + props[p].name].property < |props|
    decreases |props|
  {
    if props != [] {
      var n := |props| - 1;
      var init := props[..n];
      IndexPropsFinds(index, si, name, init);
      var prev := IndexProps(index, si, name, init);
      var r := IndexProps(index, si, name, props);
      var newKey := name + props[n].name;
      assert r == prev[newKey := Slot(si, n)];
      forall p | 0 <= p < n && name + props[p].name != newKey
        ensures name + props[p].name in r
             && r[name + props[p].name].section == si
             && p <= r[name + props[p].name].property < |props|
      {
        assert init[p] == props[p];
      }
    }
  }

  /** Inserting the properties of section `si` keeps the index sound and indexes each of them. */
  lemma IndexPropsFacts(secs: seq<Section>, index: map<string, Slot>, si: nat)
    requires si < |secs| && secs[si].sectionType.Properties?
    requires IndexSound(secs, index)
    ensures var props := secs[si].sectionType.props;
      var r := IndexProps(index, si, secs[si].name, props);
      && IndexSound(secs, r)
      && (forall p: nat, key :: KeyAt(secs, Slot(si, p), key) ==>
            key in r && r[key].section == si && p <= r[key].property)
      && (forall key :: key in index ==> key in r)
      && (forall key :: key in r ==> (key in index && r[key] == index[key]) || r[key].section == si)
  {
    var props := secs[si].sectionType.props;
    var name := secs[si].name;
    IndexPropsSlots(index, si, name, props);
    IndexPropsFinds(index, si, name, props);
  }

  /** `IndexSection` on the section just appended. */
  lemma IndexSectionFacts(secs: seq<Section>, index: map<string, Slot>, s: Section)
    requires IndexSound(secs, index)
    ensures var secs' := secs + [s];
      var r := IndexSection(index, |secs|, s);
      && IndexSound(secs', r)
      && (forall p: nat, key :: KeyAt(secs', Slot(|secs|, p), key) ==> key in r && r[key].section == |secs| && p <= r[key].property)
      && (forall key :: key in index ==> key in r)
      && (forall key :: key in r ==> (key in index && r[key] == index[key]) || r[key].section == |secs|)
  {
    var secs' := secs + [s];
    assert forall slot: Slot, key :: KeyAt(secs, slot, key) ==> KeyAt(secs', slot, key);
    if s.sectionType.Properties? {
      IndexPropsFacts(secs', index, |secs|);
    }
  }

  /**
    The sections a load leaves: the old ones, then one built section per
    entry, in order, up to the entry that failed.
   */
  lemma {:induction false} LoadFromSections(secs: seq<Section>, index: map<string, Slot>, outs: seq<Outcome<Section>>)
    ensures var r := LoadFrom(secs, index, outs);
      && |secs| <= |r.sections| <= |secs| + |outs|
      && r.sections[..|secs|] == secs
      && (forall i :: |secs| <= i < |r.sections| ==> outs[i - |secs|] == Ok(r.sections[i]))
    decreases |outs|
  {
    var r := LoadFrom(secs, index, outs);
    if outs == [] || !outs[0].Ok? {
      assert r.sections == secs;
    } else {
      var s := outs[0].value;
      var secs' := secs + [s];
      LoadFromSections(secs', IndexSection(index, |secs|, s), outs[1..]);
      assert r.sections[..|secs|] == r.sections[..|secs'|][..|secs|];
      forall i | |secs| <= i < |r.sections| ensures outs[i - |secs|] == Ok(r.sections[i]) {
        if i == |secs| {
          assert r.sections[i] == r.sections[..|secs'|][i];
        } else {
          assert outs[1..][i - |secs'|] == outs[i - |secs|];
        }
      }
    }
  }

  /**
    A load succeeds exactly when every entry builds, and then appends one
    section per entry; otherwise it reports the failure of the first entry
    that did not build, the one right after the sections it kept.
   */
  lemma {:induction false} LoadFromStatus(secs: seq<Section>, index: map<string, Slot>, outs: seq<Outcome<Section>>)
    ensures var r := LoadFrom(secs, index, outs);
      && (r.status.Ok? <==> forall i :: 0 <= i < |outs| ==> outs[i].Ok?)
      && (r.status.Ok? ==> |r.sections| == |secs| + |outs|)
      && (!r.status.Ok? ==>
            |secs| <= |r.sections| < |secs| + |outs|
            && SameFailure(r.status, outs[|r.sections| - |secs|])
            && forall i :: 0 <= i < |r.sections| - |secs| ==> outs[i].Ok?)
    decreases |outs|
  {
    var r := LoadFrom(secs, index, outs);
    if outs != [] && outs[0].Ok? {
      var secs' := secs + [outs[0].value];
      var rest := outs[1..];
      LoadFromStatus(secs', IndexSection(index, |secs|, outs[0].value), rest);
      assert forall i :: 0 <= i < |rest| ==> rest[i] == outs[i + 1];
      if r.status.Ok? {
        forall i | 0 <= i < |outs| ensures outs[i].Ok? {
          if i > 0 { assert outs[i] == rest[i - 1]; }
        }
      } else {
        forall i | 0 <= i < |r.sections| - |secs| ensures outs[i].Ok? {
          if i > 0 { assert outs[i] == rest[i - 1]; }
        }
      }
    }
  }

  /** A load keeps the index sound, finds every loaded property, and lets later keys win. */
  lemma {:induction false} LoadFromIndexed(secs: seq<Section>, index: map<string, Slot>, outs: seq<Outcome<Section>>)
    requires IndexSound(secs, index)
    ensures var r := LoadFrom(secs, index, outs);
      Indexed(r.sections, r.index, index, |secs|)
    decreases |outs|
  {
    var r := LoadFrom(secs, index, outs);
    if outs != [] && outs[0].Ok? {
      var s := outs[0].value;
      var secs' := secs + [s];
      var index' := IndexSection(index, |secs|, s);
      IndexSectionFacts(secs, index, s);
      LoadFromIndexed(secs', index', outs[1..]);
      LoadFromSections(secs', index', outs[1..]);
      assert r == LoadFrom(secs', index', outs[1..]);
      assert r.sections[|secs|] == r.sections[..|secs'|][|secs|] == s;
      forall slot: Slot, key | |secs| <= slot.section && KeyAt(r.sections, slot, key)
        ensures key in r.index && |secs| <= r.index[key].section && !Before(r.index[key], slot)
      {
        if slot.section == |secs| {
          assert KeyAt(secs', slot, key);
        }
      }
    }
  }

  /**
    After `load_json`: the old sections are kept as a prefix; each
    property of a loaded `PROPERTIES` section is found under its section
    name followed by its name, at the last loaded slot with that key; and
    no key is lost.
   */
  lemma LoadJsonIndexes(secs: seq<Section>, index: map<string, Slot>, doc: J.Json)
    requires IndexSound(secs, index)
    ensures var r := LoadJsonOf(secs, index, doc);
      && |secs| <= |r.sections|
      && r.sections[..|secs|] == secs
      && Indexed(r.sections, r.index, index, |secs|)
  {
    var r := LoadJsonOf(secs, index, doc);
    var valueList := J.AsObject(J.Get(doc, "value_list"));
    var items := J.AsObject(J.Get(doc, "sections"));
    if valueList.Some? && items.Some? {
      LoadFromIndexed(secs, index, SectionOutcomes(items.value, valueList.value));
      LoadFromSections(secs, index, SectionOutcomes(items.value, valueList.value));
    } else {
      assert secs[..|secs|] == secs;
    }
  }

  /**
    `load_json` on a document with both tables: the old sections stay, and
    the section entries follow in the `sections` object's iteration order
    (key order for serde_json's default map), each as `Section::new`
    builds it, up to the first entry that does not build.
   */
  lemma LoadJsonSections(secs: seq<Section>, index: map<string, Slot>, doc: J.Json)
    requires J.Get(doc, "value_list").Obj? && J.Get(doc, "sections").Obj?
    ensures var valueList := J.Get(doc, "value_list").entries;
      var items := J.Get(doc, "sections").entries;
      var r := LoadJsonOf(secs, index, doc);
      && |secs| <= |r.sections| <= |secs| + |items|
      && r.sections[..|secs|] == secs
      && (forall i :: |secs| <= i < |r.sections| ==>
            SectionOf(items[i - |secs|].0, items[i - |secs|].1, valueList) == Ok(r.sections[i]))
  {
    var valueList := J.Get(doc, "value_list").entries;
    var items := J.Get(doc, "sections").entries;
    var outs := SectionOutcomes(items, valueList);
    var r := LoadFrom(secs, index, outs);
    assert LoadJsonOf(secs, index, doc) == r;
    LoadFromSections(secs, index, outs);
  }

  /**
    `load_json` on a document with both tables succeeds exactly when every
    section entry builds (`SectionOutcomes` lists what `Section::new`
    gives for each entry), and then holds one new section per entry;
    otherwise it reports the failure of the first entry that does not
    build, the one right after the sections it kept.
   */
  lemma LoadJsonStatus(secs: seq<Section>, index: map<string, Slot>, doc: J.Json)
    requires J.Get(doc, "value_list").Obj? && J.Get(doc, "sections").Obj?
    ensures var outs := SectionOutcomes(J.Get(doc, "sections").entries, J.Get(doc, "value_list").entries);
      var r := LoadJsonOf(secs, index, doc);
      && (r.status.Ok? <==> forall i :: 0 <= i < |outs| ==> outs[i].Ok?)
      && (r.status.Ok? ==> |r.sections| == |secs| + |outs|)
      && (!r.status.Ok? ==>
            |secs| <= |r.sections| < |secs| + |outs|
            && SameFailure(r.status, outs[|r.sections| - |secs|]))
  {
    var outs := SectionOutcomes(J.Get(doc, "sections").entries, J.Get(doc, "value_list").entries);
    assert LoadJsonOf(secs, index, doc) == LoadFrom(secs, index, outs);
    LoadFromStatus(secs, index, outs);
  }

  /** A document with no `value_list` or `sections` object changes nothing and fails. */
  lemma LoadJsonMalformed(secs: seq<Section>, index: map<string, Slot>, doc: J.Json)
    requires !J.Get(doc, "value_list").Obj? || !J.Get(doc, "sections").Obj?
    ensures LoadJsonOf(secs, index, doc) == LoadResult(Fail, secs, index)
  {
  }

  /**
    The key is the bare concatenation of the two names, so a section `ab`
    holding `c` and a later section `a` holding `bc` share the key `abc`,
    and the later one wins.
   */
  lemma KeyCollision(p: Property, q: Property)
    requires p.name == "c" && q.name == "bc"
    ensures var secs := [Section("ab", Properties([p])), Section("a", Properties([q]))];
      var index := IndexSection(IndexSection(map[], 0, secs[0]), 1, secs[1]);
      && KeyAt(secs, Slot(0, 0), "abc")
      && KeyAt(secs, Slot(1, 0), "abc")
      && index == map["abc" := Slot(1, 0)]
  {
    var secs := [Section("ab", Properties([p])), Section("a", Properties([q]))];
    assert [p][..0] == [] && [q][..0] == [];
    assert secs[0].name + p.name == "abc";
    assert secs[1].name + q.name == "abc";
    var first := IndexSection(map[], 0, secs[0]);
    assert first == IndexProps(map[], 0, "ab", [p]) == map["abc" := Slot(0, 0)];
    assert IndexSection(first, 1, secs[1]) == IndexProps(first, 1, "a", [q]) == first["abc" := Slot(1, 0)];
  }
}
