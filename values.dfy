/** JSON values as the scrapers hold them once the fetch collaborator's body has been
    decoded, the failures a scrape step can raise, and the two ways the scrapers read
    a JSON value: Python subscripting, which raises on a missing key, and JMESPath
    field selection, which yields null instead. */
module Values {

  datatype Option<T> = None | Some(value: T)

  /** The exceptions the modelled Python code can raise, one constructor per cause. */
  datatype Error =
    | MissingKey(key: string)   // KeyError from `d[key]`
    | NotAnObject               // subscripting a value that is not a dict
    | NotAnArray                // iterating a value that is not a list
    | NotANumber                // comparing or dividing a non-number (TypeError)
    | NullRecord                // item assignment on a None projection (TypeError)
    | ZeroStep                  // `range` with step 0 (ValueError)
    | ZeroDivision              // `//` by zero (ZeroDivisionError)
    | NotSized                  // `len()` of a value without a length (TypeError)
    | MissingNode               // a selector found no node, so `json.loads(None)` fails
    | MissingAttribute(name: string)  // `.attrib[name]` on a node without it (KeyError)
    | NoMarker(marker: string)  // `s.split(marker)[1]` when `marker` is absent (IndexError)
    | FetchFailed               // the fetch collaborator raised

  datatype Result<T> = Ok(value: T) | Err(error: Error)

  /** A decoded JSON document. Objects are Python dicts, looked up by key. */
  datatype Json =
    | JNull
    | JBool(b: bool)
    | JInt(i: int)
    | JStr(s: string)
    | JArr(items: seq<Json>)
    | JObj(fields: map<string, Json>)

  /** The values Python's `len()` accepts: strings, lists and dicts. */
  predicate Sized(value: Json)
  {
    value.JStr? || value.JArr? || value.JObj?
  }

  /** Python `value[key]`: raises unless `value` is a dict holding `key`. */
  function Subscript(value: Json, key: string): (r: Result<Json>)
    ensures r.Ok? <==> value.JObj? && key in value.fields
    ensures r.Ok? ==> r.value == value.fields[key]
  {
    match value
    case JObj(fields) => if key in fields then Ok(fields[key]) else Err(MissingKey(key))
    case _ => Err(NotAnObject)
  }

  /** JMESPath field selection `key`: the field of a dict, null for anything else. */
  function Pick(value: Json, key: string): (r: Json)
    ensures r != JNull ==> value.JObj? && key in value.fields && r == value.fields[key]
    ensures value.JObj? && key in value.fields ==> r == value.fields[key]
  {
    if value.JObj? && key in value.fields then value.fields[key] else JNull
  }

  /** JMESPath field selection is Python subscripting with null in place of the
      exception: the entry `d[key]` gives when it succeeds, and null when it raises. */
  lemma SubscriptPick(value: Json, key: string)
    ensures Subscript(value, key).Ok? ==> Pick(value, key) == Subscript(value, key).value
    ensures Subscript(value, key).Err? ==> Pick(value, key) == JNull
  {
  }

  /** The integer Python sees in a JSON number or boolean (`True == 1`), if any. */
  function AsInt(value: Json): (r: Option<int>)
    ensures r.Some? <==> value.JInt? || value.JBool?
    ensures r == Some(1) <==> value == JInt(1) || value == JBool(true)
    ensures r == Some(0) <==> value == JInt(0) || value == JBool(false)
  {
    match value
    case JInt(i) => Some(i)
    case JBool(b) => Some(if b then 1 else 0)
    case _ => None
  }

  /** Python `value[path[0]][path[1]]...`: descends a fixed key path, raising at the
      first step that is not a dict holding the key. */
  function Descend(value: Json, path: seq<string>): Result<Json>
    decreases |path|
  {
    if path == [] then Ok(value)
    else match Subscript(value, path[0])
      case Err(e) => Err(e)
      case Ok(child) => Descend(child, path[1..])
  }

  /** Descending `p + q` is descending `p`, then `q` from where `p` ended. */
  lemma {:induction false} DescendAppend(value: Json, p: seq<string>, q: seq<string>)
    ensures Descend(value, p + q) ==
              match Descend(value, p)
              case Err(e) => Err(e)
              case Ok(mid) => Descend(mid, q)
    decreases |p|
  {
    if p != [] {
      assert (p + q)[0] == p[0];
      assert (p + q)[1..] == p[1..] + q;
      match Subscript(value, p[0])
      case Err(e) =>
      case Ok(child) => DescendAppend(child, p[1..], q);
    } else {
      assert p + q == q;
    }
  }

  /** A descent succeeds exactly when every prefix of the path leads to a dict that
      holds the next key. */
  lemma {:induction false} DescendOk(value: Json, path: seq<string>)
    ensures Descend(value, path).Ok? <==>
              forall k :: 0 <= k < |path| ==>
                Descend(value, path[..k]).Ok? && Subscript(Descend(value, path[..k]).value, path[k]).Ok?
    decreases |path|
  {
    if path != [] {
      assert path[..0] == [];
      match Subscript(value, path[0])
      case Err(e) =>
      case Ok(child) =>
        DescendOk(child, path[1..]);
        var tail := path[1..];
        forall k | 1 <= k < |path|
          ensures Descend(value, path[..k]) == Descend(child, tail[..k - 1])
          ensures path[k] == tail[k - 1]
        {
          assert path[..k] == [path[0]] + tail[..k - 1];
          DescendAppend(value, [path[0]], tail[..k - 1]);
          assert [path[0]][1..] == [];
        }
        if Descend(value, path).Ok? {
          forall k | 0 <= k < |path|
            ensures Descend(value, path[..k]).Ok? && Subscript(Descend(value, path[..k]).value, path[k]).Ok?
          {
            if k > 0 {
              assert Descend(child, tail[..k - 1]).Ok? && Subscript(Descend(child, tail[..k - 1]).value, tail[k - 1]).Ok?;
            }
          }
        } else {
          var j :| 0 <= j < |tail| && !(Descend(child, tail[..j]).Ok? && Subscript(Descend(child, tail[..j]).value, tail[j]).Ok?);
          assert !(Descend(value, path[..j + 1]).Ok? && Subscript(Descend(value, path[..j + 1]).value, path[j + 1]).Ok?);
        }
    }
  }
}
