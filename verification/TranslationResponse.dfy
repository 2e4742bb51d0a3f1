/** Reading the provider's decoded answer: translations may come as plain strings in order, or as
    objects in any order, addressed by id. */
module TranslationResponse {
  import opened Numeric
  import opened PipelineTypes

  datatype Json =
    | JNull
    | JBool(flag: bool)
    | JInt(number: int)
    | JReal(value: real)
    | JString(text: string)
    | JArray(items: seq<Json>)
    | JObject(fields: map<string, Json>)

  function Get(fields: map<string, Json>, key: string): Json {
    if key in fields then fields[key] else JNull
  }

  /** The decimal value of a character that can stand in an integer literal, in any script. */
  type Numerals = char -> Option<nat>

  predicate IsNumber(numerals: Numerals, s: string) {
    s != [] && forall i :: 0 <= i < |s| ==> numerals(s[i]).Some?
  }

  function NumberOf(numerals: Numerals, s: string): (n: nat)
    requires forall i :: 0 <= i < |s| ==> numerals(s[i]).Some?
  {
    if s == [] then 0 else 10 * NumberOf(numerals, s[..|s| - 1]) + numerals(s[|s| - 1]).value
  }

  /** The id of an item, or nothing when it has no usable one. A boolean counts as 0 or 1, as it
      does in Python; a digit without a decimal value, such as a superscript, fails in `int`. */
  function ItemId(numerals: Numerals, fields: map<string, Json>): Option<int> {
    match if "id" in fields then fields["id"] else Get(fields, "index")
    case JInt(n) => Some(n)
    case JBool(flag) => Some(if flag then 1 else 0)
    case JString(s) => if IsNumber(numerals, s) then Some(NumberOf(numerals, s)) else None
    case _ => None
  }

  function ItemText(fields: map<string, Json>): Option<string> {
    match if Get(fields, "translation") != JNull then Get(fields, "translation") else Get(fields, "text")
    case JString(s) => Some(s)
    case _ => None
  }

  predicate WellFormed(numerals: Numerals, item: Json) {
    item.JObject? && ItemId(numerals, item.fields).Some? && ItemText(item.fields).Some?
  }

  function IdOf(numerals: Numerals, item: Json): int
    requires WellFormed(numerals, item)
  {
    ItemId(numerals, item.fields).value
  }

  function TextOf(numerals: Numerals, item: Json): string
    requires WellFormed(numerals, item)
  {
    ItemText(item.fields).value
  }

  predicate AllStrings(items: seq<Json>) {
    forall i :: 0 <= i < |items| ==> items[i].JString?
  }

  predicate AllWellFormed(numerals: Numerals, items: seq<Json>) {
    forall i :: 0 <= i < |items| ==> WellFormed(numerals, items[i])
  }

  ghost predicate Addresses(numerals: Numerals, items: seq<Json>, id: int)
    requires AllWellFormed(numerals, items)
  {
    exists i :: 0 <= i < |items| && IdOf(numerals, items[i]) == id
  }

  function IdsBelow(count: nat): (ids: set<int>)
    ensures forall id :: id in ids <==> 0 <= id < count
  {
    if count == 0 then {} else IdsBelow(count - 1) + {count - 1}
  }

  /** Objects whose ids are exactly 0 to `count - 1`, each used once. */
  ghost predicate AddressesAll(numerals: Numerals, items: seq<Json>, count: nat) {
    && AllWellFormed(numerals, items)
    && (forall i, j :: 0 <= i < j < |items| ==> IdOf(numerals, items[i]) != IdOf(numerals, items[j]))
    && (forall id :: Addresses(numerals, items, id) <==> 0 <= id < count)
  }

  /** Every item's text stands at the position its id names. */
  ghost predicate Delivers(numerals: Numerals, items: seq<Json>, texts: seq<string>)
    requires AllWellFormed(numerals, items)
  {
    forall i :: 0 <= i < |items| ==>
      0 <= IdOf(numerals, items[i]) < |texts| && texts[IdOf(numerals, items[i])] == TextOf(numerals, items[i])
  }

  ghost predicate Usable(numerals: Numerals, parsed: Json, count: nat) {
    && parsed.JObject?
    && Get(parsed.fields, "translations").JArray?
    && var items := Get(parsed.fields, "translations").items;
       if AllStrings(items) then |items| == count else AddressesAll(numerals, items, count)
  }

  /** Succeeds exactly on usable answers; string answers are taken in order, and an object's text
      goes to the position its id names, wherever the object stands in the array. */
  method ParseTranslationResponse(numerals: Numerals, parsed: Json, count: nat) returns (result: Option<seq<string>>)
    ensures result.Some? <==> Usable(numerals, parsed, count)
    ensures result.Some? ==>
              var items := Get(parsed.fields, "translations").items;
              && |result.value| == count
              && (AllStrings(items) ==> forall i :: 0 <= i < count ==> result.value[i] == items[i].text)
              && (!AllStrings(items) ==> AddressesAll(numerals, items, count) && Delivers(numerals, items, result.value))
  {
    if !parsed.JObject? || !Get(parsed.fields, "translations").JArray? {
      return None;
    }
    var items := Get(parsed.fields, "translations").items;
    if items == [] && count > 0 {
      return None;
    }
    if AllStrings(items) {
      if |items| != count {
        return None;
      }
      return Some(seq(count, i requires 0 <= i < count => items[i].text));
    }
    result := CollectById(numerals, items, count);
  }

  method CollectById(numerals: Numerals, items: seq<Json>, count: nat) returns (result: Option<seq<string>>)
    ensures result.Some? <==> AddressesAll(numerals, items, count)
    ensures result.Some? ==> |result.value| == count && Delivers(numerals, items, result.value)
  {
    hide ItemId, ItemText;
    result := None;
    var byId := IndexItems(numerals, items);
    if byId == None {
      return;
    }
    if byId.value.Keys != IdsBelow(count) {
      assert exists id :: (id in byId.value) != (0 <= id < count);
      return;
    }
    result := Some(seq(count, id requires 0 <= id < count => byId.value[id]));
    forall i | 0 <= i < |items| ensures 0 <= IdOf(numerals, items[i]) < count {
      assert Addresses(numerals, items, IdOf(numerals, items[i]));
    }
  }

  /** Fails on an item that is not an object with an id and a text, and on a repeated id. */
  method IndexItems(numerals: Numerals, items: seq<Json>) returns (result: Option<map<int, string>>)
    ensures result.Some? <==>
              AllWellFormed(numerals, items)
              && forall i, j :: 0 <= i < j < |items| ==> IdOf(numerals, items[i]) != IdOf(numerals, items[j])
    ensures result.Some? ==> forall id :: id in result.value <==> Addresses(numerals, items, id)
    ensures result.Some? ==> forall i :: 0 <= i < |items| ==>
              IdOf(numerals, items[i]) in result.value && result.value[IdOf(numerals, items[i])] == TextOf(numerals, items[i])
  {
    hide ItemId, ItemText;
    var byId: map<int, string> := map[];
    for k := 0 to |items|
      invariant forall i :: 0 <= i < k ==> WellFormed(numerals, items[i])
      invariant forall i, j :: 0 <= i < j < k ==> IdOf(numerals, items[i]) != IdOf(numerals, items[j])
      invariant forall i :: 0 <= i < k ==> IdOf(numerals, items[i]) in byId && byId[IdOf(numerals, items[i])] == TextOf(numerals, items[i])
      invariant forall id :: id in byId ==> exists i :: 0 <= i < k && IdOf(numerals, items[i]) == id
    {
      if !items[k].JObject? {
        return None;
      }
      var id, text := ItemId(numerals, items[k].fields), ItemText(items[k].fields);
      if id == None || text == None {
        return None;
      }
      assert WellFormed(numerals, items[k]) && IdOf(numerals, items[k]) == id.value;
      if id.value in byId {
        return None;
      }
      byId := byId[id.value := text.value];
    }
    result := Some(byId);
  }

  /** Reordering the objects of an answer changes neither whether it is usable nor what it says. */
  lemma OrderOfObjectsIsIrrelevant(numerals: Numerals, items: seq<Json>, others: seq<Json>, count: nat)
    requires multiset(items) == multiset(others) && AddressesAll(numerals, items, count)
    ensures AddressesAll(numerals, others, count)
    ensures forall texts :: Delivers(numerals, items, texts) ==> Delivers(numerals, others, texts)
  {
    forall i | 0 <= i < |others| ensures others[i] in items {
      assert others[i] in multiset(others);
    }
    forall i | 0 <= i < |items| ensures items[i] in others {
      assert items[i] in multiset(items);
    }
    forall i, j | 0 <= i < j < |others| ensures IdOf(numerals, others[i]) != IdOf(numerals, others[j]) {
      if IdOf(numerals, others[i]) == IdOf(numerals, others[j]) {
        var a :| 0 <= a < |items| && items[a] == others[i];
        var b :| 0 <= b < |items| && items[b] == others[j];
        assert a == b && others[i] == others[j];
        RepeatedItem(others, i, j);
        OnceOnly(items, a);
      }
    }
    forall id ensures Addresses(numerals, others, id) <==> Addresses(numerals, items, id) {
      if Addresses(numerals, items, id) {
        var a :| 0 <= a < |items| && IdOf(numerals, items[a]) == id;
        assert items[a] in others;
      }
      if Addresses(numerals, others, id) {
        var a :| 0 <= a < |others| && IdOf(numerals, others[a]) == id;
        assert others[a] in items;
      }
    }
  }

  lemma RepeatedItem(items: seq<Json>, i: nat, j: nat)
    requires i < j < |items| && items[i] == items[j]
    ensures multiset(items)[items[i]] >= 2
  {
    assert items == items[..i] + [items[i]] + items[i + 1..j] + [items[j]] + items[j + 1..];
  }

  lemma OnceOnly(items: seq<Json>, i: nat)
    requires i < |items| && forall j :: 0 <= j < |items| && j != i ==> items[j] != items[i]
    ensures multiset(items)[items[i]] == 1
  {
    assert items == items[..i] + [items[i]] + items[i + 1..];
    assert items[i] !in items[..i] && items[i] !in items[i + 1..];
  }

  // ----- The answers that are asked for -----

  /** How an answer may be spelled: ids under either key, as numbers or in decimal digits, and texts
      under either key. */
  datatype Spelling = Spelling(idKey: string, textKey: string, idsAsDigits: bool)

  predicate IsKnown(spelling: Spelling) {
    spelling.idKey in {"id", "index"} && spelling.textKey in {"translation", "text"}
  }

  function Item(spelling: Spelling, id: nat, text: string): Json {
    JObject(map[spelling.idKey := if spelling.idsAsDigits then JString(Decimal(id)) else JInt(id),
                spelling.textKey := JString(text)])
  }

  function Items(spelling: Spelling, texts: seq<string>): (items: seq<Json>)
    ensures |items| == |texts|
  {
    seq(|texts|, i requires 0 <= i < |texts| => Item(spelling, i, texts[i]))
  }

  /** The ten ASCII digits have their values. */
  ghost predicate ReadsDigits(numerals: Numerals) {
    forall d :: 0 <= d < 10 ==> numerals(Digit(d)) == Some(d)
  }

  lemma {:induction false} DecimalIsRead(numerals: Numerals, n: nat)
    requires ReadsDigits(numerals)
    ensures IsNumber(numerals, Decimal(n)) && NumberOf(numerals, Decimal(n)) == n
  {
    var s := Decimal(n);
    if n < 10 {
      assert s == [Digit(n)] && s[..0] == [];
      assert NumberOf(numerals, s[..0]) == 0;
    } else {
      DecimalIsRead(numerals, n / 10);
      assert s[..|s| - 1] == Decimal(n / 10) && s[|s| - 1] == Digit(n % 10);
    }
  }

  lemma ItemIsRead(numerals: Numerals, spelling: Spelling, id: nat, text: string)
    requires ReadsDigits(numerals) && IsKnown(spelling)
    ensures var item := Item(spelling, id, text);
            WellFormed(numerals, item) && IdOf(numerals, item) == id && TextOf(numerals, item) == text
  {
    hide Decimal, IsNumber, NumberOf;
    DecimalIsRead(numerals, id);
  }

  /** The answer that gives every text its number is understood in each spelling, and so, by
      `OrderOfObjectsIsIrrelevant`, is any reordering of it; and it says those texts. */
  lemma AskedForAnswerIsUnderstood(numerals: Numerals, spelling: Spelling, texts: seq<string>, others: seq<string>)
    requires ReadsDigits(numerals) && IsKnown(spelling)
    ensures AddressesAll(numerals, Items(spelling, texts), |texts|)
    ensures |others| == |texts| && Delivers(numerals, Items(spelling, texts), others) ==> others == texts
  {
    hide Item, WellFormed, IdOf, TextOf;
    var items := Items(spelling, texts);
    forall i | 0 <= i < |items|
      ensures WellFormed(numerals, items[i]) && IdOf(numerals, items[i]) == i && TextOf(numerals, items[i]) == texts[i]
    {
      ItemIsRead(numerals, spelling, i, texts[i]);
    }
    forall id | 0 <= id < |texts| ensures Addresses(numerals, items, id) {
      assert IdOf(numerals, items[id]) == id;
    }
    if |others| == |texts| && Delivers(numerals, items, others) {
      forall i | 0 <= i < |texts| ensures others[i] == texts[i] {
        assert others[IdOf(numerals, items[i])] == TextOf(numerals, items[i]);
      }
    }
  }

  /** What makes an item useless: it is no object, has no id that is a number, or no text. */
  lemma UselessItems(numerals: Numerals, fields: map<string, Json>)
    ensures "id" !in fields && "index" !in fields ==> !WellFormed(numerals, JObject(fields))
    ensures "translation" !in fields && "text" !in fields ==> !WellFormed(numerals, JObject(fields))
    ensures "id" in fields && (fields["id"] == JNull || fields["id"].JReal? || fields["id"].JArray? || fields["id"].JObject?) ==>
              !WellFormed(numerals, JObject(fields))
    ensures "id" in fields && fields["id"].JString? && !IsNumber(numerals, fields["id"].text) ==> !WellFormed(numerals, JObject(fields))
    ensures "translation" in fields && !fields["translation"].JNull? && !fields["translation"].JString? ==>
              !WellFormed(numerals, JObject(fields))
  {
  }
}
