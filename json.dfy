/** JSON values as a JavaScript handler sees them: parsed request bodies and
    the objects handed to `res.json`. Object members keep their insertion order,
    which is the order `JSON.stringify` writes them in. */
module Json {
  import opened Wrappers

  datatype Json =
    | Null
    | Bool(b: bool)
    | Number(n: int)
    | Str(s: string)
    | Array(items: seq<Json>)
    | Object(members: seq<(string, Json)>)

  /** JavaScript truthiness of a value that is present (`undefined` is handled by callers). */
  predicate Truthy(v: Json)
    ensures Truthy(v) <==> v != Null && v != Bool(false) && v != Number(0) && v != Str("")
  {
    match v
    case Null => false
    case Bool(b) => b
    case Number(n) => n != 0
    case Str(s) => s != ""
    case Array(_) => true
    case Object(_) => true
  }

  /** Property `key` of an object; when a key occurs twice the later member wins,
      as with `JSON.parse`. */
  function Property(members: seq<(string, Json)>, key: string): Option<Json> {
    if members == [] then None
    else if members[|members| - 1].0 == key then Some(members[|members| - 1].1)
    else Property(members[..|members| - 1], key)
  }

  /** `Property` is absent exactly when no member has the key, and otherwise is the
      value of the last member that has it. */
  lemma {:induction false} PropertyIsLast(members: seq<(string, Json)>, key: string)
    ensures Property(members, key).None? <==> forall i :: 0 <= i < |members| ==> members[i].0 != key
    ensures Property(members, key).Some? ==>
              exists i :: 0 <= i < |members| && members[i] == (key, Property(members, key).value) &&
                forall j :: i < j < |members| ==> members[j].0 != key
  {
    if members == [] {
    } else if members[|members| - 1].0 == key {
      var n := |members| - 1;
      assert members[n] == (key, Property(members, key).value);
    } else {
      var prefix := members[..|members| - 1];
      PropertyIsLast(prefix, key);
      assert Property(members, key) == Property(prefix, key);
      if Property(prefix, key).Some? {
        var i :| 0 <= i < |prefix| && prefix[i] == (key, Property(prefix, key).value) &&
                 forall j :: i < j < |prefix| ==> prefix[j].0 != key;
        assert members[i] == prefix[i];
        assert forall j :: i < j < |members| ==> members[j].0 != key by {
          forall j | i < j < |members| ensures members[j].0 != key {
            if j < |prefix| { assert members[j] == prefix[j]; }
          }
        }
      } else {
        forall i | 0 <= i < |members| ensures members[i].0 != key {
          if i < |prefix| { assert members[i] == prefix[i]; }
        }
      }
    }
  }

  /** A member that no later member shadows is what `Property` finds. */
  lemma {:induction false} PropertyAt(members: seq<(string, Json)>, i: nat)
    requires i < |members|
    requires forall j :: i < j < |members| ==> members[j].0 != members[i].0
    ensures Property(members, members[i].0) == Some(members[i].1)
  {
    if i < |members| - 1 {
      var prefix := members[..|members| - 1];
      assert prefix[i] == members[i];
      PropertyAt(prefix, i);
    }
  }

  /** `v.key` for a value that is neither `null` nor `undefined`: only objects
      have own properties; on strings, numbers, booleans and arrays it reads `undefined`. */
  function Member(v: Json, key: string): (r: Option<Json>)
    requires !v.Null?
    ensures !v.Object? ==> r.None?
    ensures v.Object? ==> r == Property(v.members, key)
  {
    if v.Object? then Property(v.members, key) else None
  }
}
