/**
 * The agent's settings as the conductor reads them: a mapping from dotted keys to
 * Python values, read with `settings.get(key, default)` and tested for truthiness.
 */
module Config {
  import opened Wrappers

  /** The Python values a setting can hold. */
  datatype Value = Null | Bool(b: bool) | Int(i: int) | Str(s: string) | List(items: seq<Value>)

  /** Python truthiness: `None`, `False`, `0`, `""` and `[]` are false, everything else is true. */
  predicate Truthy(v: Value)
  {
    match v
    case Null => false
    case Bool(b) => b
    case Int(i) => i != 0
    case Str(s) => s != ""
    case List(items) => items != []
  }

  type Settings = map<string, Value>

  /** `settings.get(key, default)`: the stored value when the key is present, else the default. */
  function Get(settings: Settings, key: string, default: Value): Value
  {
    if key in settings then settings[key] else default
  }

  /**
   * What `for x in v` iterates over: the elements of a list, the one-character strings of
   * a string; `None` when iterating raises `TypeError` (booleans, integers, `None`).
   */
  function Iterate(v: Value): Option<seq<Value>>
  {
    match v
    case List(items) => Some(items)
    case Str(s) => Some(seq(|s|, i requires 0 <= i < |s| => Str([s[i]])))
    case _ => None
  }

  /** `"".join(items)` over string values (a value of another kind contributes nothing). */
  function Join(items: seq<Value>): string
  {
    if items == [] then "" else (if items[0].Str? then items[0].s else "") + Join(items[1..])
  }

  /**
   * Iterating a string yields one-character strings, one per character, that join back to
   * the string: the characters in order, each once.
   */
  lemma {:induction false} IterateStringJoins(s: string)
    ensures Iterate(Str(s)).Some?
    ensures var items := Iterate(Str(s)).value;
            |items| == |s| && (forall i :: 0 <= i < |items| ==> items[i].Str? && |items[i].s| == 1)
            && Join(items) == s
  {
    if s != [] {
      IterateStringJoins(s[1..]);
      var items := Iterate(Str(s)).value;
      assert items[1..] == Iterate(Str(s[1..])).value;
      assert s == [s[0]] + s[1..];
    }
  }
}
