/** `URLSearchParams` as the dashboard uses it: an ordered list of
    name/value pairs with `get`, `set` and `delete` as the URL standard
    defines them. */
module Query {
  import opened Types

  type Entries = seq<(string, string)>

  /** `params.get(name)`: the value of the first pair with that name. */
  function Get(es: Entries, name: string): Option<string>
  {
    if es == [] then None
    else if es[0].0 == name then Some(es[0].1)
    else Get(es[1..], name)
  }

  /** `params.delete(name)`: removes every pair with that name and keeps the
      others in order. */
  function Delete(es: Entries, name: string): (r: Entries)
    ensures Get(r, name).None?
    ensures forall other :: other != name ==> Get(r, other) == Get(es, other)
  {
    if es == [] then []
    else if es[0].0 == name then Delete(es[1..], name)
    else [es[0]] + Delete(es[1..], name)
  }

  lemma {:induction false} GetAppend(es: Entries, name: string, value: string, other: string)
    requires Get(es, name).None?
    ensures Get(es + [(name, value)], other) == if other == name then Some(value) else Get(es, other)
  {
    if es != [] {
      assert (es + [(name, value)])[1..] == es[1..] + [(name, value)];
      if es[0].0 != other {
        GetAppend(es[1..], name, value, other);
      }
    }
  }

  /** Replaces the value of the first pair with `name` and removes the later
      ones. */
  function ReplaceFirst(es: Entries, name: string, value: string): (r: Entries)
    requires Get(es, name).Some?
    ensures Get(r, name) == Some(value)
    ensures forall other :: other != name ==> Get(r, other) == Get(es, other)
  {
    if es[0].0 == name then [(name, value)] + Delete(es[1..], name)
    else [es[0]] + ReplaceFirst(es[1..], name, value)
  }

  /** `params.set(name, value)`: afterwards `name` maps to `value` and every
      other name keeps its value. */
  function Set(es: Entries, name: string, value: string): (r: Entries)
    ensures Get(r, name) == Some(value)
    ensures forall other :: other != name ==> Get(r, other) == Get(es, other)
  {
    if Get(es, name).Some? then ReplaceFirst(es, name, value)
    else
      assert forall other :: Get(es + [(name, value)], other) == if other == name then Some(value) else Get(es, other) by {
        forall other { GetAppend(es, name, value, other); }
      }
      es + [(name, value)]
  }

  /** A `URLSearchParams` object that handlers copy from the current URL and
      then update in place. */
  class SearchParams {
    var entries: Entries

    constructor (init: Entries)
      ensures entries == init
    {
      entries := init;
    }

    function GetParam(name: string): Option<string>
      reads this
    {
      Get(entries, name)
    }

    method SetParam(name: string, value: string)
      modifies this
      ensures entries == Set(old(entries), name, value)
    {
      entries := Set(entries, name, value);
    }

    method DeleteParam(name: string)
      modifies this
      ensures entries == Delete(old(entries), name)
    {
      entries := Delete(entries, name);
    }
  }
}
