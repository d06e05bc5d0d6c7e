/** The browser's `FormData`: an ordered list of name/value entries that
    `append` extends in place and `get` searches from the front. */
module FormDataModel {
  import opened Common

  class FormData {
    var entries: seq<(string, string)>

    /** `new FormData()`. */
    constructor ()
      ensures entries == []
    {
      entries := [];
    }

    /** `formData.append(name, value)`. */
    method Append(name: string, value: string)
      modifies this
      ensures entries == old(entries) + [(name, value)]
    {
      entries := entries + [(name, value)];
    }

    /** `formData.get(name)`: the value of the first entry with that name,
        `null` when there is none. */
    function Get(name: string): Option<string>
      reads this
    {
      Lookup(entries, name)
    }
  }

  /** Entry `i` is the first one named `name`. */
  predicate FirstNamed(es: seq<(string, string)>, name: string, i: int) {
    0 <= i < |es| && es[i].0 == name && forall j :: 0 <= j < i ==> es[j].0 != name
  }

  function Lookup(es: seq<(string, string)>, name: string): (r: Option<string>)
    ensures r.None? <==> forall i :: 0 <= i < |es| ==> es[i].0 != name
    ensures r.Some? ==> exists i :: FirstNamed(es, name, i) && es[i].1 == r.value
  {
    if es == [] then None
    else if es[0].0 == name then
      assert FirstNamed(es, name, 0);
      Some(es[0].1)
    else
      var r := Lookup(es[1..], name);
      if r.Some? then
        var i :| FirstNamed(es[1..], name, i) && es[1..][i].1 == r.value;
        assert FirstNamed(es, name, i + 1);
        r
      else r
  }

  /** Appending an entry does not change what `get` finds for a name that
      was already present, and makes a new name findable. */
  lemma {:induction false} LookupAppend(es: seq<(string, string)>, name: string, value: string, key: string)
    ensures Lookup(es + [(name, value)], key) ==
            if Lookup(es, key).Some? || key != name then Lookup(es, key) else Some(value)
  {
    if es != [] {
      assert (es + [(name, value)])[1..] == es[1..] + [(name, value)];
      LookupAppend(es[1..], name, value, key);
    }
  }
}
