/** The decoded JSON document of an HTTP response, as Python's `json` module
    returns it: objects become dictionaries, arrays become lists. Numbers are
    kept as integers; nothing in the chat session reads a number. */
module Json {
  import opened Wrappers

  datatype Value =
    | Null
    | Bool(b: bool)
    | Number(n: int)
    | Str(s: string)
    | Array(items: seq<Value>)
    | Object(fields: map<string, Value>)

  /** One step into a document: a dictionary key or a list index. */
  datatype Step = Key(key: string) | Index(i: nat)

  /** The member one step below `v`, if `v` has it. */
  function Child(v: Value, step: Step): Option<Value> {
    match step
    case Key(k) => if v.Object? && k in v.fields then Some(v.fields[k]) else None
    case Index(i) => if v.Array? && i < |v.items| then Some(v.items[i]) else None
  }

  /** The member reached by following `path` from `v`; `None` as soon as a step
      is missing. */
  function At(v: Value, path: seq<Step>): Option<Value>
    decreases |path|
  {
    if path == [] then Some(v)
    else
      match Child(v, path[0])
      case None => None
      case Some(w) => At(w, path[1..])
  }

  /** Following a path one step further extends the lookup by that step. */
  lemma {:induction false} AtSnoc(v: Value, path: seq<Step>, step: Step)
    ensures At(v, path + [step]) ==
              match At(v, path)
              case None => None
              case Some(w) => Child(w, step)
    decreases |path|
  {
    if path == [] {
      assert [step][1..] == [];
    } else {
      assert (path + [step])[1..] == path[1..] + [step];
      match Child(v, path[0])
      case None =>
      case Some(w) => AtSnoc(w, path[1..], step);
    }
  }
}
