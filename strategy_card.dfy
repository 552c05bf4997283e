/** The editable strategy panel of components/StrategyCard.tsx: which field
    each textarea shows, where its edits go, and how tall it is. */
module StrategyCard {
  import opened Types
  import JsString
  import GeminiService

  /** The keys of `items`, in display order, which is the order types.ts
      declares them in; so each of the eleven keys appears once. */
  function Items(): (items: seq<StrategyKey>)
    ensures items == Keys()
    ensures |items| == 11
    ensures forall k :: KeyIndex(k) < |items| && items[KeyIndex(k)] == k
  {
    [Concept, Composition, ColorPalette, Product, Background, Typography,
     TextContent, Lighting, Props, ArtStyle, TechSpecs]
  }

  /** The panel lists the fields in the order the response schema requires
      them. */
  lemma ItemsFollowSchemaOrder()
    ensures KeyNames(Items()) == GeminiService.StrategySchema().required
  {
    GeminiService.StrategySchemaAgrees();
  }

  /** The value each textarea shows, `strategy[item.key]`, in display order. */
  function Display(s: StrategyData): (values: seq<string>)
    ensures |values| == |Items()|
    ensures forall i :: 0 <= i < |values| ==> values[i] == Get(s, Items()[i])
  {
    seq(|Items()|, i requires 0 <= i < |Items()| => Get(s, Items()[i]))
  }

  /** What a textarea's `onChange` hands to `onUpdate`. */
  datatype Update = Update(field: StrategyKey, value: string)

  /** The `onChange` of textarea `i`: `onUpdate(item.key, e.target.value)`. */
  function OnChange(i: nat, newValue: string): (u: Update)
    requires i < |Items()|
    ensures u.field == Items()[i] && u.value == newValue
  {
    Update(Items()[i], newValue)
  }

  /** Applying an edit from textarea `i` changes what textarea `i` shows to
      the typed text and leaves every other textarea as it was. */
  lemma EditShowsInOwnTextarea(s: StrategyData, i: nat, newValue: string, j: nat)
    requires i < |Items()| && j < |Items()|
    ensures var u := OnChange(i, newValue);
      Display(With(s, u.field, u.value))[j] == if j == i then newValue else Display(s)[j]
  {
    if j != i {
      assert Keys()[j] != Keys()[i];
    }
  }

  /** Feeds values to the textareas of `keys`, one `onUpdate` after another. */
  function ApplyAll(s: StrategyData, keys: seq<StrategyKey>, values: seq<string>): (r: StrategyData)
    requires |keys| == |values|
    decreases |keys|
  {
    if keys == [] then s else ApplyAll(With(s, keys[0], values[0]), keys[1..], values[1..])
  }

  lemma {:induction false} ApplyAllGet(s: StrategyData, keys: seq<StrategyKey>, values: seq<string>, k: StrategyKey)
    requires |keys| == |values|
    requires forall i, j :: 0 <= i < j < |keys| ==> keys[i] != keys[j]
    ensures k !in keys ==> Get(ApplyAll(s, keys, values), k) == Get(s, k)
    ensures forall i :: 0 <= i < |keys| && keys[i] == k ==> Get(ApplyAll(s, keys, values), k) == values[i]
    decreases |keys|
  {
    if keys != [] {
      var s' := With(s, keys[0], values[0]);
      ApplyAllGet(s', keys[1..], values[1..], k);
      forall i | 0 <= i < |keys| && keys[i] == k
        ensures Get(ApplyAll(s, keys, values), k) == values[i]
      {
        if i == 0 {
          assert k !in keys[1..];
        } else {
          assert keys[1..][i - 1] == k;
        }
      }
    }
  }

  /** Reading the panel back: whatever strategy the edits start from, typing
      into every textarea the value it shows reproduces the displayed strategy
      field for field. */
  lemma {:induction false} ReadBack(s: StrategyData, start: StrategyData)
    ensures ApplyAll(start, Items(), Display(s)) == s
  {
    var keys, values := Items(), Display(s);
    assert keys == Keys();
    var t := ApplyAll(start, keys, values);
    forall k ensures Get(t, k) == Get(s, k) {
      ApplyAllGet(start, keys, values, k);
      assert keys[KeyIndex(k)] == k;
    }
    StrategyExtensional(t, s);
  }

  /** `rows={Math.max(2, value.split('\n').length)}`: one row per line of the
      value and never fewer than two. */
  function Rows(value: string): (rows: nat)
    ensures rows >= 2
    ensures rows == if JsString.Count(value, '\n') + 1 > 2 then JsString.Count(value, '\n') + 1 else 2
  {
    var lines := |JsString.Split(value, '\n')|;
    if 2 > lines then 2 else lines
  }
}
