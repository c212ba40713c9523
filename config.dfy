/** The start-up configuration: the built-in defaults, and how a
    configuration document read at start-up is merged into them. Reading
    the file and parsing its JSON are not modelled: the parsed top-level
    object is the input, and a file that is missing or does not parse is
    `None`. */
module Config {

  /** A JSON value as the parser returns it. */
  datatype Json = JNull | JBool(b: bool) | JNum(r: real) | JStr(s: string) | JArr(items: seq<Json>) | JObj(fields: map<string, Json>)

  /** A configuration: a top-level JSON object, by key. */
  type Document = map<string, Json>

  /** The entries of one section of the defaults, by action name. */
  type Section = map<string, Json>

  /** A table of defaults: the entries of each section, by section name. */
  type Table = map<string, Section>

  datatype Option<T> = None | Some(value: T)

  /** The four sections completed from the defaults, in the order they are completed. */
  const Sections: seq<string> := ["keys", "thresholds", "enabled", "min_durations"]

  /** The gesture names of the built-in defaults. */
  const Gestures: set<string> := {"SOURIRE", "FRONCEMENT", "HAUSSEMENT", "MALICIEUX", "PENCHE", "CLIN_DOEIL", "REFLECHIR"}

  /** The built-in defaults. Every section covers the seven gestures; the
      key mapping also covers NEUTRE. */
  function DefaultTable(): (t: Table)
    ensures forall s :: s in t <==> s in Sections
    ensures forall s :: s in t ==> t[s].Keys == (if s == "keys" then Gestures + {"NEUTRE"} else Gestures)
  {
    map["keys" :=
          map["NEUTRE" := JStr("f13"), "SOURIRE" := JStr("f14"), "FRONCEMENT" := JStr("f15"),
              "HAUSSEMENT" := JStr("f16"), "MALICIEUX" := JStr("f17"), "PENCHE" := JStr("f18"),
              "CLIN_DOEIL" := JStr("f19"), "REFLECHIR" := JStr("f20")],
        "thresholds" :=
          map["SOURIRE" := JNum(0.5), "FRONCEMENT" := JNum(0.4), "HAUSSEMENT" := JNum(0.5),
              "MALICIEUX" := JNum(0.7), "PENCHE" := JNum(0.3), "CLIN_DOEIL" := JNum(0.2),
              "REFLECHIR" := JNum(0.6)],
        "enabled" :=
          map["SOURIRE" := JBool(true), "FRONCEMENT" := JBool(true), "HAUSSEMENT" := JBool(true),
              "MALICIEUX" := JBool(true), "PENCHE" := JBool(true), "CLIN_DOEIL" := JBool(true),
              "REFLECHIR" := JBool(true)],
        "min_durations" :=
          map["SOURIRE" := JNum(0.5), "FRONCEMENT" := JNum(0.5), "HAUSSEMENT" := JNum(0.5),
              "MALICIEUX" := JNum(1.0), "PENCHE" := JNum(0.5), "CLIN_DOEIL" := JNum(0.2),
              "REFLECHIR" := JNum(1.0)]]
  }

  /** A table of defaults as a configuration document: one object per section. */
  function AsDocument(table: Table): (d: Document)
    ensures forall s :: s in d <==> s in table
    ensures forall s :: s in table ==> d[s] == JObj(table[s])
  {
    map s | s in table :: JObj(table[s])
  }

  /** The built-in configuration. */
  function Defaults(): Document {
    AsDocument(DefaultTable())
  }

  /** The outcome of the membership test `name in v` on a JSON value. */
  datatype Membership = Member | NotMember | TypeError

  /** The membership test on a JSON value: a key of an object, a substring
      of a string, an element of a list; on a number, a boolean or null
      the test raises. */
  function Contains(v: Json, name: string): (r: Membership)
    ensures r == TypeError <==> v.JNull? || v.JBool? || v.JNum?
    ensures v.JObj? ==> (r == Member <==> name in v.fields)
  {
    match v
    case JObj(m) => if name in m then Member else NotMember
    case JStr(s) => if IsSubstring(name, s) then Member else NotMember
    case JArr(items) => if JStr(name) in items then Member else NotMember
    case _ => TypeError
  }

  /** `t` occurs in `s` as a contiguous run. */
  predicate IsSubstring(t: string, s: string)
    decreases |s|
  {
    t <= s || (s != [] && IsSubstring(t, s[1..]))
  }

  /** The legacy test: the loaded key mapping names the English action
      HAPPY of an earlier version, or cannot be tested for it. */
  predicate Legacy(loaded: Document): (r: bool)
    ensures "keys" !in loaded ==> !r
    ensures "keys" in loaded && loaded["keys"].JObj? ==> (r <==> "HAPPY" in loaded["keys"].fields)
    ensures "keys" in loaded && (loaded["keys"].JNull? || loaded["keys"].JBool? || loaded["keys"].JNum?) ==> r
  {
    "keys" in loaded && Contains(loaded["keys"], "HAPPY") != NotMember
  }

  /** The loaded document laid over a copy of the defaults: the loaded
      value wins for every top-level key it has. */
  function Overlay(table: Table, loaded: Document): (r: Document)
    ensures forall k :: k in r <==> k in loaded || k in table
    ensures forall k :: k in r ==> r[k] == if k in loaded then loaded[k] else JObj(table[k])
  {
    AsDocument(table) + loaded
  }

  /** A section value can be completed without raising: an object always
      can; a string or a list only when every default name is already in
      it, since adding an entry to it raises. */
  predicate Fillable(v: Json, defaults: Section) {
    v.JObj? || forall n :: n in defaults ==> Contains(v, n) == Member
  }

  /** A section value with every missing default entry added. */
  function Fill(v: Json, defaults: Section): (r: Json)
    ensures r.JObj? == v.JObj? && (!v.JObj? ==> r == v)
    ensures v.JObj? ==> r.fields.Keys == defaults.Keys + v.fields.Keys
  {
    if v.JObj? then JObj(defaults + v.fields) else v
  }

  /** Filling keeps every entry of the section and adds exactly the
      missing defaults; a string or a list is kept as it is. */
  lemma FillEntries(v: Json, defaults: Section, n: string)
    ensures Fill(v, defaults).JObj? == v.JObj?
    ensures !v.JObj? ==> Fill(v, defaults) == v
    ensures v.JObj? ==> (n in Fill(v, defaults).fields <==> n in v.fields || n in defaults)
    ensures v.JObj? && n in v.fields ==> Fill(v, defaults).fields[n] == v.fields[n]
    ensures v.JObj? && n in defaults && n !in v.fields ==> Fill(v, defaults).fields[n] == defaults[n]
  {
  }

  /** Every section of the defaults that the document has can be completed. */
  predicate AllFillable(table: Table, doc: Document) {
    forall s :: s in table && s in doc ==> Fillable(doc[s], table[s])
  }

  /** The document with every section of the defaults completed. */
  function Filled(table: Table, doc: Document): (r: Document)
    ensures r.Keys == doc.Keys
    ensures forall k :: k in doc && k !in table ==> r[k] == doc[k]
  {
    map k | k in doc :: if k in table then Fill(doc[k], table[k]) else doc[k]
  }

  /** The loaded document is replaced by the defaults: it fails the legacy
      test, or one of its sections cannot be completed. */
  predicate Rejected(table: Table, loaded: Document) {
    Legacy(loaded) || !AllFillable(table, Overlay(table, loaded))
  }

  /** The configuration the merge produces from a loaded document. */
  function Merged(table: Table, loaded: Document): (cfg: Document)
    ensures Rejected(table, loaded) ==> cfg == AsDocument(table)
    ensures table.Keys <= cfg.Keys
  {
    if Rejected(table, loaded) then AsDocument(table) else Filled(table, Overlay(table, loaded))
  }

  /** The loader's inner loop on one section: each default name the
      section lacks is added; `None` when a step raises (the test on a
      number, a boolean or null, or adding to a string or a list). The
      names are visited in an unspecified order, which the result does
      not depend on. */
  method FillSection(v: Json, defaults: Section) returns (r: Option<Json>)
    ensures r.Some? <==> Fillable(v, defaults)
    ensures r.Some? ==> r.value == Fill(v, defaults)
  {
    var section := v;
    var todo := defaults.Keys;
    while todo != {}
      invariant todo <= defaults.Keys
      invariant section.JObj? == v.JObj?
      invariant v.JObj? ==> section.fields == (defaults - todo) + v.fields
      invariant !v.JObj? ==> section == v
      invariant !v.JObj? ==> forall n :: n in defaults && n !in todo ==> Contains(v, n) == Member
      decreases todo
    {
      var act :| act in todo;
      var found := Contains(section, act);
      if found == TypeError || (found == NotMember && !section.JObj?) {
        return None;
      }
      if found == NotMember {
        section := JObj(section.fields[act := defaults[act]]);
      }
      todo := todo - {act};
    }
    assert defaults - todo == defaults;
    return Some(section);
  }

  /** The loader's outer loop: each section of `order` completed in turn;
      `None` when a step raises. */
  method FillAll(table: Table, order: seq<string>, doc: Document) returns (r: Option<Document>)
    requires forall s :: s in table <==> s in order
    requires forall i, j :: 0 <= i < j < |order| ==> order[i] != order[j]
    requires table.Keys <= doc.Keys
    ensures r.Some? <==> AllFillable(table, doc)
    ensures r.Some? ==> r.value == Filled(table, doc)
  {
    var cfg := doc;
    ghost var done: set<string> := {};
    for i := 0 to |order|
      invariant cfg.Keys == doc.Keys && done <= table.Keys
      invariant forall k :: k in cfg ==> cfg[k] == if k in done then Fill(doc[k], table[k]) else doc[k]
      invariant forall k :: k in done ==> Fillable(doc[k], table[k])
      invariant forall j :: 0 <= j < i ==> order[j] in done
      invariant forall j :: i <= j < |order| ==> order[j] !in done
    {
      var key := order[i];
      var filled := FillSection(cfg[key], table[key]);
      if filled.None? {
        return None;
      }
      cfg := cfg[key := filled.value];
      done := done + {key};
    }
    return Some(cfg);
  }

  /** The merge as the loader runs it: the legacy test, the copy of the
      defaults updated with the loaded document, then its sections
      completed, the whole attempt falling back to the defaults when a
      step raises. The loader's guard for a section missing from the copy
      never fires, since the copy has them all. */
  method MergeConfig(table: Table, order: seq<string>, loaded: Document) returns (cfg: Document)
    requires forall s :: s in table <==> s in order
    requires forall i, j :: 0 <= i < j < |order| ==> order[i] != order[j]
    ensures cfg == Merged(table, loaded)
  {
    var default := AsDocument(table);
    if "keys" in loaded && Contains(loaded["keys"], "HAPPY") != NotMember {
      return default;
    }
    var filled := FillAll(table, order, default + loaded);
    if filled.None? {
      return default;
    }
    cfg := filled.value;
  }

  /** Loading at start-up: a missing or unreadable file gives the built-in
      defaults, a parsed document is merged into them. */
  method LoadConfig(parsed: Option<Document>) returns (cfg: Document)
    ensures parsed.None? ==> cfg == Defaults()
    ensures parsed.Some? ==> cfg == Merged(DefaultTable(), parsed.value)
  {
    if parsed.None? {
      cfg := Defaults();
    } else {
      cfg := MergeConfig(DefaultTable(), Sections, parsed.value);
    }
  }

  /** After the merge, every section of the defaults is present and
      contains every name of its defaults. */
  lemma SectionsComplete(table: Table, loaded: Document)
    ensures forall s :: s in table ==> s in Merged(table, loaded)
    ensures forall s, n :: s in table && n in table[s] ==> Contains(Merged(table, loaded)[s], n) == Member
  {
    forall s, n | s in table && n in table[s]
      ensures Contains(Merged(table, loaded)[s], n) == Member
    {
      if !Rejected(table, loaded) {
        var v := Overlay(table, loaded)[s];
        assert Fillable(v, table[s]);
      }
    }
  }

  /** Where the merge keeps the loaded document, an entry of a loaded
      section object wins over the default, a default entry fills what
      the section lacks, and nothing else is added. */
  lemma LoadedValuesWin(table: Table, loaded: Document, s: string, n: string)
    requires !Rejected(table, loaded) && s in table
    requires s in loaded && loaded[s].JObj?
    ensures Merged(table, loaded)[s].JObj?
    ensures n in loaded[s].fields ==> Merged(table, loaded)[s].fields[n] == loaded[s].fields[n]
    ensures n !in loaded[s].fields && n in table[s] ==> Merged(table, loaded)[s].fields[n] == table[s][n]
    ensures n in Merged(table, loaded)[s].fields <==> n in loaded[s].fields || n in table[s]
  {
  }

  /** Where the merge keeps the loaded document, any other top-level key
      of it is kept unchanged. */
  lemma OtherKeysKept(table: Table, loaded: Document, k: string)
    requires !Rejected(table, loaded) && k in loaded && k !in table
    ensures k in Merged(table, loaded) && Merged(table, loaded)[k] == loaded[k]
  {
  }

  /** A legacy document whose key mapping names HAPPY yields exactly the
      defaults, whatever else it holds. */
  lemma LegacyGivesDefaults(table: Table, loaded: Document)
    requires "keys" in loaded && loaded["keys"].JObj? && "HAPPY" in loaded["keys"].fields
    ensures Merged(table, loaded) == AsDocument(table)
  {
  }

  /** Completing a section twice is completing it once. */
  lemma FillTwice(v: Json, d: Section)
    ensures Fillable(v, d) ==> Fillable(Fill(v, d), d)
    ensures Fill(Fill(v, d), d) == Fill(v, d)
  {
    if v.JObj? {
      assert d + (d + v.fields) == d + v.fields;
    }
  }

  /** Completing a document twice is completing it once. */
  lemma FilledTwice(table: Table, doc: Document)
    ensures AllFillable(table, doc) ==> AllFillable(table, Filled(table, doc))
    ensures Filled(table, Filled(table, doc)) == Filled(table, doc)
  {
    forall k | k in table && k in doc
      ensures Fillable(doc[k], table[k]) ==> Fillable(Fill(doc[k], table[k]), table[k])
      ensures Fill(Fill(doc[k], table[k]), table[k]) == Fill(doc[k], table[k])
    {
      FillTwice(doc[k], table[k]);
    }
  }

  /** Laying a document that already has every section over the defaults
      gives the document back. */
  lemma OverlayCovered(table: Table, doc: Document)
    requires table.Keys <= doc.Keys
    ensures Overlay(table, doc) == doc
  {
  }

  /** The defaults as a document are already complete. */
  lemma FilledDefaults(table: Table)
    ensures AllFillable(table, AsDocument(table))
    ensures Filled(table, AsDocument(table)) == AsDocument(table)
  {
    var d := AsDocument(table);
    forall k | k in d ensures Filled(table, d)[k] == d[k] {
      assert table[k] + table[k] == table[k];
    }
  }

  /** An empty document gives the defaults. */
  lemma EmptyGivesDefaults(table: Table)
    ensures Merged(table, map[]) == AsDocument(table)
  {
    assert Overlay(table, map[]) == AsDocument(table);
    FilledDefaults(table);
  }

  /** No merged configuration names HAPPY in its key mapping, unless the
      defaults themselves do. */
  lemma KeysLackHappy(table: Table, loaded: Document)
    requires "keys" in table && "HAPPY" !in table["keys"]
    ensures "keys" in Merged(table, loaded) && !Legacy(Merged(table, loaded))
  {
    if !Rejected(table, loaded) {
      var v := Overlay(table, loaded)["keys"];
      if "keys" in loaded {
        assert Contains(loaded["keys"], "HAPPY") == NotMember;
      }
      assert Merged(table, loaded)["keys"] == Fill(v, table["keys"]);
    }
  }

  /** Merging is idempotent: merging an already merged configuration
      changes nothing. */
  lemma MergeIdempotent(table: Table, loaded: Document)
    requires "keys" in table && "HAPPY" !in table["keys"]
    ensures Merged(table, Merged(table, loaded)) == Merged(table, loaded)
  {
    var m := Merged(table, loaded);
    KeysLackHappy(table, loaded);
    if Rejected(table, loaded) {
      OverlayCovered(table, m);
      FilledDefaults(table);
    } else {
      var base := Overlay(table, loaded);
      OverlayCovered(table, m);
      FilledTwice(table, base);
    }
  }

  /** The built-in key mapping does not name HAPPY. */
  lemma DefaultKeysLackHappy()
    ensures "keys" in DefaultTable() && "HAPPY" !in DefaultTable()["keys"]
  {
    assert "HAPPY" !in Gestures + {"NEUTRE"};
  }

  /** The built-in defaults are a fixed point of the loader's merge. */
  lemma DefaultsFixed()
    ensures Merged(DefaultTable(), Defaults()) == Defaults()
  {
    DefaultKeysLackHappy();
    EmptyGivesDefaults(DefaultTable());
    MergeIdempotent(DefaultTable(), map[]);
  }

  /** Every configuration the loader produces has all four sections, each
      covering every gesture, and its key mapping also covers NEUTRE. */
  lemma MergedCoversGestures(loaded: Document)
    ensures forall s, n :: s in Sections && n in Gestures ==>
              s in Merged(DefaultTable(), loaded) && Contains(Merged(DefaultTable(), loaded)[s], n) == Member
    ensures Contains(Merged(DefaultTable(), loaded)["keys"], "NEUTRE") == Member
  {
    SectionsComplete(DefaultTable(), loaded);
  }
}
