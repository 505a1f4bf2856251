/** The label tables of the configuration pages: a text shown in the page against the number in
    the device configuration, found by a nested first-match search over items, keys, rules and
    mapping entries. */
module TextTables {
  import opened Common

  /** The families of labels; a label is its family and its number, so TYPE_4 is Label(Type, 4). */
  datatype Group =
    | Type | Range | ResistanceRange | ThermalRange | IntTime | Smooth | TempCoeff | TempUnit
    | Time | Disconn | ModVer | ConType | LineFreq | PeriodMeters | DataVariant | CtSndCur

  datatype UiText = Label(group: Group, code: int) | Mark(on: bool) | ErrorText

  const ERROR: Value := Text("ERROR!")

  /** The configuration fields that are translated. */
  datatype Name =
    | TypeName | RangeName | IntegTimeName | SmoothName | TemperCoeffName | TemperUnitName
    | DelayTimeName | BehaviorName | SubstituteName
    | ModuleVersionName | ConTypeName | LineFreqName | DataVariantName | PeriodMetersName | CtSecondCurName

  datatype Key = Whole(name: Name) | OfChannel(index: nat, name: Name)

  /** The regular expressions of the tables: a field name, a field of channels 0 .. last, or a field
      of one channel group. */
  datatype KeyRe = Word(name: Name) | ChannelWord(last: nat, name: Name) | GroupWord(index: nat, name: Name)

  predicate Test(re: KeyRe, key: Key) {
    match re
    case Word(n) => key.name == n
    case ChannelWord(last, n) => key.OfChannel? && key.index <= last && key.name == n
    case GroupWord(index, n) => key.OfChannel? && key.index == index && key.name == n
  }

  datatype Entry = Entry(ui: UiText, yaml: int)

  datatype Rule = Rule(scenario: string, mapping: seq<Entry>)

  datatype Item = Item(keys: seq<KeyRe>, rules: seq<Rule>)

  type Table = seq<Item>

  /** What a search compares an entry with. */
  datatype Query = ByUi(text: UiText) | ByYaml(number: Value)

  predicate Answers(e: Entry, q: Query) {
    match q
    case ByUi(text) => e.ui == text
    case ByYaml(number) => Num(e.yaml) == number
  }

  // ---------- the nested search ----------

  function InMapping(mapping: seq<Entry>, q: Query): Option<Entry> {
    if mapping == [] then None
    else if Answers(mapping[0], q) then Some(mapping[0])
    else InMapping(mapping[1..], q)
  }

  function InRules(rules: seq<Rule>, scenario: string, q: Query): Option<Entry> {
    if rules == [] then None
    else if rules[0].scenario == scenario && InMapping(rules[0].mapping, q).Some? then InMapping(rules[0].mapping, q)
    else InRules(rules[1..], scenario, q)
  }

  function InKeys(keys: seq<KeyRe>, rules: seq<Rule>, key: Key, scenario: string, q: Query): Option<Entry> {
    if keys == [] then None
    else if Test(keys[0], key) && InRules(rules, scenario, q).Some? then InRules(rules, scenario, q)
    else InKeys(keys[1..], rules, key, scenario, q)
  }

  function InTable(table: Table, key: Key, scenario: string, q: Query): Option<Entry> {
    if table == [] then None
    else if InKeys(table[0].keys, table[0].rules, key, scenario, q).Some?
    then InKeys(table[0].keys, table[0].rules, key, scenario, q)
    else InTable(table[1..], key, scenario, q)
  }

  function UiToYaml(table: Table, key: Key, text: UiText, scenario: string): Value {
    match InTable(table, key, scenario, ByUi(text))
    case Some(e) => Num(e.yaml)
    case None => ERROR
  }

  function YamlToUi(table: Table, key: Key, number: Value, scenario: string): UiText {
    match InTable(table, key, scenario, ByYaml(number))
    case Some(e) => e.ui
    case None => ErrorText
  }

  // ---------- the search as a first match in one list ----------

  function RuleEntries(rules: seq<Rule>, scenario: string): seq<Entry> {
    if rules == [] then []
    else (if rules[0].scenario == scenario then rules[0].mapping else []) + RuleEntries(rules[1..], scenario)
  }

  function KeyEntries(keys: seq<KeyRe>, rules: seq<Rule>, key: Key, scenario: string): seq<Entry> {
    if keys == [] then []
    else (if Test(keys[0], key) then RuleEntries(rules, scenario) else []) + KeyEntries(keys[1..], rules, key, scenario)
  }

  /** All entries that apply to a key and a scenario, in search order. */
  function Applicable(table: Table, key: Key, scenario: string): seq<Entry> {
    if table == [] then []
    else KeyEntries(table[0].keys, table[0].rules, key, scenario) + Applicable(table[1..], key, scenario)
  }

  lemma {:induction false} InAppend(a: seq<Entry>, b: seq<Entry>, q: Query)
    ensures InMapping(a + b, q) == if InMapping(a, q).Some? then InMapping(a, q) else InMapping(b, q)
  {
    if a == [] {
      assert a + b == b;
    } else {
      InAppend(a[1..], b, q);
      assert (a + b)[1..] == a[1..] + b;
    }
  }

  lemma {:induction false} RulesFlat(rules: seq<Rule>, scenario: string, q: Query)
    ensures InRules(rules, scenario, q) == InMapping(RuleEntries(rules, scenario), q)
  {
    if rules != [] {
      RulesFlat(rules[1..], scenario, q);
      InAppend(if rules[0].scenario == scenario then rules[0].mapping else [], RuleEntries(rules[1..], scenario), q);
    }
  }

  lemma {:induction false} KeysFlat(keys: seq<KeyRe>, rules: seq<Rule>, key: Key, scenario: string, q: Query)
    ensures InKeys(keys, rules, key, scenario, q) == InMapping(KeyEntries(keys, rules, key, scenario), q)
  {
    if keys != [] {
      RulesFlat(rules, scenario, q);
      KeysFlat(keys[1..], rules, key, scenario, q);
      InAppend(if Test(keys[0], key) then RuleEntries(rules, scenario) else [],
               KeyEntries(keys[1..], rules, key, scenario), q);
    }
  }

  /** The nested search answers with the first matching entry of the applicable ones. */
  lemma {:induction false} SearchIsFirstMatch(table: Table, key: Key, scenario: string, q: Query)
    ensures InTable(table, key, scenario, q) == InMapping(Applicable(table, key, scenario), q)
  {
    if table != [] {
      KeysFlat(table[0].keys, table[0].rules, key, scenario, q);
      SearchIsFirstMatch(table[1..], key, scenario, q);
      InAppend(KeyEntries(table[0].keys, table[0].rules, key, scenario), Applicable(table[1..], key, scenario), q);
    }
  }

  lemma {:induction false} FirstMatch(mapping: seq<Entry>, q: Query)
    ensures InMapping(mapping, q).None? <==> forall e :: e in mapping ==> !Answers(e, q)
    ensures InMapping(mapping, q).Some?
            ==> InMapping(mapping, q).value in mapping && Answers(InMapping(mapping, q).value, q)
  {
    if mapping != [] {
      FirstMatch(mapping[1..], q);
      assert mapping == [mapping[0]] + mapping[1..];
    }
  }

  // ---------- the two directions ----------

  predicate Listed(table: Table, key: Key, scenario: string, n: int) {
    exists e :: e in Applicable(table, key, scenario) && e.yaml == n
  }

  predicate Offered(table: Table, key: Key, scenario: string, text: UiText) {
    exists e :: e in Applicable(table, key, scenario) && e.ui == text
  }

  /** No label stands for two numbers. */
  predicate LabelsDistinct(table: Table, key: Key, scenario: string) {
    forall d, e ::
      (d in Applicable(table, key, scenario) && e in Applicable(table, key, scenario) && d.ui == e.ui)
      ==> d.yaml == e.yaml
  }

  /** No number has two labels. */
  predicate NumbersDistinct(table: Table, key: Key, scenario: string) {
    forall d, e ::
      (d in Applicable(table, key, scenario) && e in Applicable(table, key, scenario) && d.yaml == e.yaml)
      ==> d.ui == e.ui
  }

  /** Where a number is listed first. */
  function FirstListed(es: seq<Entry>, n: int): (i: nat)
    ensures i <= |es| && (i < |es| ==> es[i].yaml == n)
    ensures forall j :: 0 <= j < i ==> es[j].yaml != n
  {
    if es == [] || es[0].yaml == n then 0
    else
      assert forall j :: 0 <= j < |es| - 1 ==> es[1..][j] == es[j + 1];
      FirstListed(es[1..], n) + 1
  }

  /** The label of the number's first entry stands for no other number before it. */
  predicate LabelIsOwn(es: seq<Entry>, n: int) {
    var i := FirstListed(es, n);
    i < |es| && forall j :: 0 <= j < i ==> es[j].ui != es[i].ui
  }

  lemma {:induction false} FirstIsFound(es: seq<Entry>, n: int)
    ensures InMapping(es, ByYaml(Num(n)))
         == if FirstListed(es, n) < |es| then Some(es[FirstListed(es, n)]) else None
  {
    if es != [] {
      FirstIsFound(es[1..], n);
    }
  }

  lemma {:induction false} EarlierWins(es: seq<Entry>, i: nat, j: nat)
    requires j <= i < |es| && es[j].ui == es[i].ui
    ensures InMapping(es, ByUi(es[i].ui)).Some?
    ensures (forall k :: 0 <= k < j ==> es[k].ui != es[i].ui) ==> InMapping(es, ByUi(es[i].ui)) == Some(es[j])
  {
    if j > 0 {
      EarlierWins(es[1..], i - 1, j - 1);
    }
  }

  lemma LabelFinds(es: seq<Entry>, i: nat)
    requires i < |es|
    ensures InMapping(es, ByUi(es[i].ui)).Some?
    ensures exists j :: 0 <= j <= i && es[j].ui == es[i].ui && InMapping(es, ByUi(es[i].ui)).value == es[j]
              && forall k :: 0 <= k < j ==> es[k].ui != es[i].ui
  {
    var j := 0;
    while es[j].ui != es[i].ui
      invariant j <= i
      invariant forall k :: 0 <= k < j ==> es[k].ui != es[i].ui
      decreases i - j
    {
      j := j + 1;
    }
    EarlierWins(es, i, j);
  }

  /** uiToYaml undoes yamlToUi on a listed number exactly when the number's first label has no earlier
      entry, which would be for another number. */
  lemma NumberReturnsIff(table: Table, key: Key, scenario: string, n: int)
    requires Listed(table, key, scenario, n)
    ensures UiToYaml(table, key, YamlToUi(table, key, Num(n), scenario), scenario) == Num(n)
       <==> LabelIsOwn(Applicable(table, key, scenario), n)
  {
    hide Applicable, InMapping, InTable;
    var es := Applicable(table, key, scenario);
    SearchIsFirstMatch(table, key, scenario, ByYaml(Num(n)));
    FirstIsFound(es, n);
    var i := FirstListed(es, n);
    SearchIsFirstMatch(table, key, scenario, ByUi(es[i].ui));
    LabelFinds(es, i);
  }

  /** So every listed number returns when no label stands for two numbers. */
  lemma NumberRoundTrip(table: Table, key: Key, scenario: string, n: int)
    requires LabelsDistinct(table, key, scenario) && Listed(table, key, scenario, n)
    ensures UiToYaml(table, key, YamlToUi(table, key, Num(n), scenario), scenario) == Num(n)
  {
    hide Applicable, InMapping, InTable;
    NumberReturnsIff(table, key, scenario, n);
  }

  /** yamlToUi undoes uiToYaml on every offered label exactly when no offered label shares its number
      with another one. */
  lemma LabelRoundTrip(table: Table, key: Key, scenario: string)
    requires LabelsDistinct(table, key, scenario)
    ensures NumbersDistinct(table, key, scenario)
       <==> forall text :: Offered(table, key, scenario, text)
              ==> YamlToUi(table, key, UiToYaml(table, key, text, scenario), scenario) == text
  {
    var es := Applicable(table, key, scenario);
    forall text | Offered(table, key, scenario, text)
      ensures exists d :: d in es && d.ui == text && UiToYaml(table, key, text, scenario) == Num(d.yaml)
                       && (forall e :: e in es && e.ui == text ==> e.yaml == d.yaml)
      ensures exists c :: c in es && c.ui == YamlToUi(table, key, UiToYaml(table, key, text, scenario), scenario)
                       && Num(c.yaml) == UiToYaml(table, key, text, scenario)
    {
      SearchIsFirstMatch(table, key, scenario, ByUi(text));
      FirstMatch(es, ByUi(text));
      var number := UiToYaml(table, key, text, scenario);
      SearchIsFirstMatch(table, key, scenario, ByYaml(number));
      FirstMatch(es, ByYaml(number));
    }
    forall d, e | d in es && e in es
      ensures Offered(table, key, scenario, d.ui) && Offered(table, key, scenario, e.ui)
    {
    }
  }

  /** 'ERROR!' answers exactly the texts that are not offered, and the numbers that are not listed. */
  lemma ErrorIff(table: Table, key: Key, scenario: string, text: UiText, number: Value)
    requires forall e :: e in Applicable(table, key, scenario) ==> e.ui != ErrorText
    ensures UiToYaml(table, key, text, scenario) == ERROR <==> !Offered(table, key, scenario, text)
    ensures YamlToUi(table, key, number, scenario) == ErrorText
       <==> !(number.Num? && Listed(table, key, scenario, number.n))
  {
    var es := Applicable(table, key, scenario);
    SearchIsFirstMatch(table, key, scenario, ByUi(text));
    FirstMatch(es, ByUi(text));
    SearchIsFirstMatch(table, key, scenario, ByYaml(number));
    FirstMatch(es, ByYaml(number));
  }

  // ---------- tables of numbered labels ----------

  const ALL: string := "all"

  /** The labels of one family for the given numbers. */
  function Codes(g: Group, codes: seq<int>): (m: seq<Entry>)
    ensures |m| == |codes|
  {
    seq(|codes|, i requires 0 <= i < |codes| => Entry(Label(g, codes[i]), codes[i]))
  }

  /** Only item k of the table, through its key m, applies to the key. */
  predicate OnlyItem(table: Table, k: nat, m: nat, key: Key) {
    && k < |table| && m < |table[k].keys|
    && (forall j ::
          0 <= j < |table| && j != k ==> forall i :: 0 <= i < |table[j].keys| ==> !Test(table[j].keys[i], key))
    && (forall i :: 0 <= i < |table[k].keys| ==> (Test(table[k].keys[i], key) <==> i == m))
  }

  lemma {:induction false} NoKeys(keys: seq<KeyRe>, rules: seq<Rule>, key: Key, scenario: string)
    requires forall i :: 0 <= i < |keys| ==> !Test(keys[i], key)
    ensures KeyEntries(keys, rules, key, scenario) == []
  {
    if keys != [] {
      NoKeys(keys[1..], rules, key, scenario);
    }
  }

  lemma {:induction false} OneKey(keys: seq<KeyRe>, rules: seq<Rule>, key: Key, scenario: string, m: nat)
    requires m < |keys| && forall i :: 0 <= i < |keys| ==> (Test(keys[i], key) <==> i == m)
    ensures KeyEntries(keys, rules, key, scenario) == RuleEntries(rules, scenario)
  {
    if m == 0 {
      NoKeys(keys[1..], rules, key, scenario);
    } else {
      OneKey(keys[1..], rules, key, scenario, m - 1);
    }
  }

  lemma {:induction false} NoItems(table: Table, key: Key, scenario: string)
    requires forall j :: 0 <= j < |table| ==> forall i :: 0 <= i < |table[j].keys| ==> !Test(table[j].keys[i], key)
    ensures Applicable(table, key, scenario) == []
  {
    if table != [] {
      NoKeys(table[0].keys, table[0].rules, key, scenario);
      NoItems(table[1..], key, scenario);
    }
  }

  lemma {:induction false} OneItem(table: Table, k: nat, m: nat, key: Key, scenario: string)
    requires OnlyItem(table, k, m, key)
    ensures Applicable(table, key, scenario) == RuleEntries(table[k].rules, scenario)
  {
    hide KeyEntries, Test, RuleEntries;
    if k == 0 {
      OneKey(table[0].keys, table[0].rules, key, scenario, m);
      NoItems(table[1..], key, scenario);
    } else {
      NoKeys(table[0].keys, table[0].rules, key, scenario);
      OneItem(table[1..], k - 1, m, key, scenario);
    }
  }

  predicate TextIn(t: UiText, g: Group, codes: set<int>) {
    t.Label? && t.group == g && t.code in codes
  }

  predicate NumIn(v: Value, codes: set<int>) {
    v.Num? && v.n in codes
  }

  /** What a key that stands for one family of labels makes of a number, and of a text. */
  function Show(v: Value, g: Group, codes: set<int>): UiText {
    if NumIn(v, codes) then Label(g, v.n) else ErrorText
  }

  function Read(t: UiText, g: Group, codes: set<int>): Value {
    if TextIn(t, g, codes) then Num(t.code) else ERROR
  }

  /** The labels a page offers in a menu, whose order is of no account. */
  datatype Selection = Selection(group: Group, codes: set<int>) {
    predicate Includes(t: UiText) {
      TextIn(t, group, codes)
    }
  }

  /** A menu that depends on other entries, and the label it falls back to. */
  datatype Choice = Choice(selection: Selection, standard: UiText)

  /** A key translates exactly the numbered labels of one family. */
  ghost predicate Translates(table: Table, key: Key, scenario: string, g: Group, codes: set<int>) {
    && (forall t :: UiToYaml(table, key, t, scenario) == Read(t, g, codes))
    && (forall v :: YamlToUi(table, key, v, scenario) == Show(v, g, codes))
  }

  /** A value the table lists; the error text, once there, stays. */
  predicate Kept(v: Value, codes: set<int>) {
    NumIn(v, codes) || v == ERROR
  }

  /** A number survives being shown and read exactly when it is listed, or is the error text already. */
  lemma ShownAndRead(v: Value, g: Group, codes: set<int>)
    ensures Read(Show(v, g, codes), g, codes) == v <==> Kept(v, codes)
  {
  }

  /** The set of the listed numbers. */
  function Members(list: seq<int>): set<int> {
    set c | c in list
  }

  lemma {:induction false} CodesSearch(g: Group, list: seq<int>, t: UiText, v: Value)
    ensures InMapping(Codes(g, list), ByUi(t)) == if TextIn(t, g, Members(list)) then Some(Entry(t, t.code)) else None
    ensures InMapping(Codes(g, list), ByYaml(v))
         == if NumIn(v, Members(list)) then Some(Entry(Label(g, v.n), v.n)) else None
  {
    if list != [] {
      CodesSearch(g, list[1..], t, v);
      assert Codes(g, list)[1..] == Codes(g, list[1..]);
      assert list == [list[0]] + list[1..];
    }
  }

  lemma CodesTranslate(table: Table, k: nat, m: nat, key: Key, scenario: string, g: Group, list: seq<int>,
                       codes: set<int>)
    requires OnlyItem(table, k, m, key) && RuleEntries(table[k].rules, scenario) == Codes(g, list)
    requires Members(list) == codes
    ensures Translates(table, key, scenario, g, codes)
  {
    hide OnlyItem, Applicable, RuleEntries, InTable, InMapping, Codes;
    OneItem(table, k, m, key, scenario);
    forall t
      ensures UiToYaml(table, key, t, scenario) == Read(t, g, codes)
    {
      SearchIsFirstMatch(table, key, scenario, ByUi(t));
      CodesSearch(g, list, t, Num(0));
    }
    forall v
      ensures YamlToUi(table, key, v, scenario) == Show(v, g, codes)
    {
      SearchIsFirstMatch(table, key, scenario, ByYaml(v));
      CodesSearch(g, list, ErrorText, v);
    }
  }

  /** One key whose single rule lists the given numbers. */
  lemma KeyTranslates(table: Table, k: nat, m: nat, key: Key, rule: Rule, g: Group, list: seq<int>, codes: set<int>)
    requires OnlyItem(table, k, m, key) && table[k].rules == [rule]
    requires rule == Rule(ALL, Codes(g, list)) && Members(list) == codes
    ensures Translates(table, key, ALL, g, codes)
  {
    hide OnlyItem, RuleEntries, Codes, Translates;
    OneRule(rule);
    CodesTranslate(table, k, m, key, ALL, g, list, codes);
  }

  lemma OneRule(rule: Rule)
    ensures RuleEntries([rule], rule.scenario) == rule.mapping
  {
    assert [rule][1..] == [];
    assert rule.mapping + [] == rule.mapping;
  }
}
