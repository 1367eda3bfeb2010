/** The argument dialog: `ArgumentDialog` and `Red2NetApp.get_parameters`. */
module Dialog {
  import opened Wrappers

  /** A Python dict with string keys: the keys in insertion order and the mapping. */
  datatype Dict<V> = Dict(keys: seq<string>, values: map<string, V>) {
    ghost predicate Valid() {
      (forall i, j :: 0 <= i < j < |keys| ==> keys[i] != keys[j]) &&
      (forall k :: k in values <==> k in keys)
    }
  }

  /** `d[k] = v`: a new key goes last, an existing key keeps its place and takes the new value. */
  function Assign<V>(d: Dict<V>, k: string, v: V): (r: Dict<V>)
    requires d.Valid()
    ensures r.Valid()
    ensures k in r.values && r.values[k] == v
    ensures forall k' :: k' in d.values && k' != k ==> k' in r.values && r.values[k'] == d.values[k']
    ensures k in d.values ==> r.keys == d.keys
    ensures k !in d.values ==> r.keys == d.keys + [k]
  {
    Dict(if k in d.values then d.keys else d.keys + [k], d.values[k := v])
  }

  /** The position of the first occurrence of `x` in `s`. */
  function FirstIndex(s: seq<string>, x: string): (p: nat)
    requires x in s
    ensures p < |s| && s[p] == x
    ensures forall j :: 0 <= j < p ==> s[j] != x
  {
    if s[0] == x then 0 else 1 + FirstIndex(s[1..], x)
  }

  /** The position of the last occurrence of `x` in `s`. */
  function LastIndex(s: seq<string>, x: string): (p: nat)
    requires x in s
    ensures p < |s| && s[p] == x
    ensures forall j :: p < j < |s| ==> s[j] != x
  {
    if s[|s| - 1] == x then |s| - 1 else LastIndex(s[..|s| - 1], x)
  }

  /**
   * `self.entries` once the dialog's constructor has run: each argument name
   * maps to the row of the Entry widget that `entries[arg]` holds last.
   */
  function EntriesOf(arguments: seq<string>): (entries: Dict<nat>)
    ensures entries.Valid()
    ensures forall k :: k in entries.values <==> k in arguments
    ensures forall k :: k in entries.values ==> entries.values[k] == LastIndex(arguments, k)
    decreases |arguments|
  {
    if arguments == [] then Dict([], map[])
    else
      var n := |arguments| - 1;
      var before := EntriesOf(arguments[..n]);
      EntriesStep(arguments, before);
      Assign(before, arguments[n], n)
  }

  /** An element of a non-empty sequence is in its prefix without the last element, or it is the last element. */
  lemma InPrefixOrLast(s: seq<string>, x: string)
    requires s != []
    ensures x in s <==> x in s[..|s| - 1] || x == s[|s| - 1]
  {
    assert s == s[..|s| - 1] + [s[|s| - 1]];
  }

  /** Assigning the last schema row to the entries of the rows before it gives the entries of the whole schema. */
  lemma EntriesStep(arguments: seq<string>, before: Dict<nat>)
    requires arguments != [] && before.Valid()
    requires forall k :: k in before.values <==> k in arguments[..|arguments| - 1]
    requires forall k :: k in before.values ==> before.values[k] == LastIndex(arguments[..|arguments| - 1], k)
    ensures var r := Assign(before, arguments[|arguments| - 1], |arguments| - 1);
      && (forall k :: k in r.values <==> k in arguments)
      && (forall k :: k in r.values ==> r.values[k] == LastIndex(arguments, k))
  {
    var n := |arguments| - 1;
    var r := Assign(before, arguments[n], n);
    forall k ensures k in r.values <==> k in arguments {
      InPrefixOrLast(arguments, k);
    }
    forall k | k in r.values ensures r.values[k] == LastIndex(arguments, k) {
      if k != arguments[n] {
        assert LastIndex(arguments, k) == LastIndex(arguments[..n], k);
      }
    }
  }

  /** The constructor's loop step: schema row `i` is assigned to the entries of the rows before it. */
  lemma EntriesOfStep(arguments: seq<string>, i: nat)
    requires i < |arguments|
    ensures EntriesOf(arguments[..i + 1]) == Assign(EntriesOf(arguments[..i]), arguments[i], i)
  {
    assert arguments[..i + 1][..i] == arguments[..i];
  }

  /** Each of `names` occurs in `arguments`, and they are ordered by their first occurrence there. */
  ghost predicate OrderedByFirstOccurrence(names: seq<string>, arguments: seq<string>) {
    (forall i :: 0 <= i < |names| ==> names[i] in arguments) &&
    (forall i, j :: 0 <= i < j < |names| ==> FirstIndex(arguments, names[i]) < FirstIndex(arguments, names[j]))
  }

  /** A name that occurs in a prefix has the same first occurrence in the whole sequence. */
  lemma FirstIndexOfPrefix(s: seq<string>, n: nat, x: string)
    requires n <= |s| && x in s[..n]
    ensures FirstIndex(s, x) == FirstIndex(s[..n], x)
  {
    var p := FirstIndex(s[..n], x);
    assert s[p] == x;
    assert forall j :: 0 <= j < p ==> s[j] == s[..n][j];
  }

  /** One more schema row adds its name at the end of the keys unless the name is already there. */
  lemma EntriesKeysStep(arguments: seq<string>)
    requires arguments != []
    ensures var n := |arguments| - 1;
      var before := EntriesOf(arguments[..n]).keys;
      EntriesOf(arguments).keys == if arguments[n] in before then before else before + [arguments[n]]
  {
    var before := EntriesOf(arguments[..|arguments| - 1]);
    assert forall k :: k in before.values <==> k in before.keys;
  }

  /** Adding the last schema row to ordered keys, as `EntriesOf` does, keeps them ordered. */
  lemma OrderStep(arguments: seq<string>, before: seq<string>, keys: seq<string>)
    requires arguments != []
    requires OrderedByFirstOccurrence(before, arguments[..|arguments| - 1])
    requires var x := arguments[|arguments| - 1];
      keys == if x in before then before else before + [x]
    requires arguments[|arguments| - 1] in arguments[..|arguments| - 1] ==> arguments[|arguments| - 1] in before
    ensures OrderedByFirstOccurrence(keys, arguments)
  {
    var n := |arguments| - 1;
    var prefix := arguments[..n];
    var x := arguments[n];
    forall i | 0 <= i < |before|
      ensures before[i] in prefix && FirstIndex(arguments, before[i]) == FirstIndex(prefix, before[i]) < n
    {
      FirstIndexOfPrefix(arguments, n, before[i]);
    }
    forall i, j | 0 <= i < j < |keys|
      ensures FirstIndex(arguments, keys[i]) < FirstIndex(arguments, keys[j])
    {
      if j == |before| {
        assert keys[j] == x && x !in prefix;
        assert FirstIndex(arguments, x) == n;
      }
    }
  }

  /** The dialog's keys follow the schema's order of first occurrence. */
  lemma {:induction false} EntriesOrder(arguments: seq<string>)
    ensures OrderedByFirstOccurrence(EntriesOf(arguments).keys, arguments)
  {
    if arguments != [] {
      var n := |arguments| - 1;
      EntriesOrder(arguments[..n]);
      EntriesKeysStep(arguments);
      OrderStep(arguments, EntriesOf(arguments[..n]).keys, EntriesOf(arguments).keys);
    }
  }

  /** The text in the Entry widget on `row`; rows the user did not fill read as empty. */
  function TextAt(typed: seq<string>, row: nat): string {
    if row < |typed| then typed[row] else ""
  }

  /** `{arg: entry.get() for arg, entry in entries.items()}` over the keys `keys`. */
  function Items(keys: seq<string>, values: map<string, nat>, typed: seq<string>): (items: seq<(string, string)>)
    requires forall k :: k in keys ==> k in values
    ensures |items| == |keys|
    ensures forall i :: 0 <= i < |keys| ==> items[i] == (keys[i], TextAt(typed, values[keys[i]]))
  {
    if keys == [] then []
    else [(keys[0], TextAt(typed, values[keys[0]]))] + Items(keys[1..], values, typed)
  }

  /** The argument names of a name/value list. */
  function Names(items: seq<(string, string)>): (names: seq<string>)
    ensures |names| == |items| && forall i :: 0 <= i < |items| ==> names[i] == items[i].0
  {
    if items == [] then [] else [items[0].0] + Names(items[1..])
  }

  /** What `ok` stores in `self.result` when the rows hold `typed`. */
  function OkResult(arguments: seq<string>, typed: seq<string>): seq<(string, string)> {
    var entries := EntriesOf(arguments);
    Items(entries.keys, entries.values, typed)
  }

  /**
   * The OK result holds one pair per distinct argument name, in the order of
   * first occurrence, and each value is the text of the last row with that name.
   */
  lemma OkResultShape(arguments: seq<string>, typed: seq<string>)
    ensures OrderedByFirstOccurrence(Names(OkResult(arguments, typed)), arguments)
    ensures forall k :: k in arguments ==> k in Names(OkResult(arguments, typed))
    ensures forall i :: 0 <= i < |OkResult(arguments, typed)| ==>
              OkResult(arguments, typed)[i].0 in arguments &&
              OkResult(arguments, typed)[i].1 == TextAt(typed, LastIndex(arguments, OkResult(arguments, typed)[i].0))
  {
    var entries := EntriesOf(arguments);
    var items := OkResult(arguments, typed);
    EntriesOrder(arguments);
    assert Names(items) == entries.keys;
    forall i | 0 <= i < |items|
      ensures items[i].0 in arguments && items[i].1 == TextAt(typed, LastIndex(arguments, items[i].0))
    {
      assert items[i].0 == entries.keys[i] && entries.keys[i] in entries.values;
    }
  }

  /** A non-empty schema always yields a non-empty OK result. */
  lemma OkResultNonEmpty(arguments: seq<string>, typed: seq<string>)
    requires arguments != []
    ensures OkResult(arguments, typed) != []
  {
    assert arguments[0] in EntriesOf(arguments).values;
  }

  /** `get_parameters`: `answer` is `None` for Cancel, or the rows' texts for OK. */
  function CollectArguments(arguments: seq<string>, answer: Option<seq<string>>): (params: Option<seq<(string, string)>>)
    ensures params.None? <==> answer.None?
    ensures params.Some? ==> params.value == OkResult(arguments, answer.value)
  {
    match answer
    case None => None
    case Some(typed) => Some(OkResult(arguments, typed))
  }

  /** The state `ArgumentDialog` updates: its entries and its result. */
  class ArgumentDialog {
    const arguments: seq<string>
    var entries: Dict<nat>
    var result: Option<seq<(string, string)>>

    /** The entries are the ones the constructor built from the schema. */
    ghost predicate Valid()
      reads this
    {
      entries == EntriesOf(arguments)
    }

    /** `__init__`: one Entry per schema row, stored under its name, and no result yet. */
    constructor (arguments: seq<string>)
      ensures Valid()
      ensures this.arguments == arguments && entries == EntriesOf(arguments) && result == None
    {
      this.arguments := arguments;
      var e: Dict<nat> := Dict([], map[]);
      var i := 0;
      while i < |arguments|
        invariant 0 <= i <= |arguments|
        invariant e == EntriesOf(arguments[..i])
      {
        EntriesOfStep(arguments, i);
        e := Assign(e, arguments[i], i);
        i := i + 1;
      }
      assert arguments[..|arguments|] == arguments;
      entries := e;
      result := None;
    }

    /** `ok`: the result maps every entry name to its widget's text. */
    method Ok(typed: seq<string>)
      requires Valid()
      modifies this`result
      ensures Valid()
      ensures result == Some(OkResult(arguments, typed))
    {
      result := Some(Items(entries.keys, entries.values, typed));
    }

    /** `cancel`: no result. */
    method Cancel()
      requires Valid()
      modifies this`result
      ensures Valid()
      ensures result == None
    {
      result := None;
    }
  }
}
