/**
 * `FormDataPolyfill`: an ordered multimap held in one private list of
 * `(name, value)` pairs. The mutators reassign or update that list in place;
 * the queries read it through the functions of `PairList`.
 * `V` stands for `string | Blob`, whose contents the class never inspects.
 */
module FormData {
  import opened Wrappers
  import PairList

  class FormDataPolyfill<V> {
    var data: seq<(string, V)>

    constructor ()
      ensures data == []
    {
      data := [];
    }

    /** `append`: `(name, value)` becomes the new last entry. */
    method Append(name: string, value: V)
      modifies this
      ensures data == old(data) + [(name, value)]
      ensures GetAll(name) == old(GetAll(name)) + [value]
    {
      data := data + [(name, value)];
      PairList.AppendQueries(old(data), name, value);
    }

    /** `delete`: drops every entry named `name`; the others keep their order. */
    method Delete(name: string)
      modifies this
      ensures data == PairList.Without(old(data), name)
      ensures !Has(name) && GetAll(name) == []
      ensures PairList.Subsequence(data, old(data))
      ensures forall i :: 0 <= i < |old(data)| && old(data)[i].0 != name ==> old(data)[i] in data
    {
      data := PairList.Without(data, name);
      PairList.WithoutIsSubsequence(old(data), name);
      PairList.WithoutComplete(old(data), name);
    }

    /** `get`: the value of the first entry named `name`, or None for `null`. */
    function Get(name: string): (r: Option<V>)
      reads this
      ensures r.None? <==> forall i :: 0 <= i < |data| ==> data[i].0 != name
      ensures r.Some? ==> (name, r.value) in data
    {
      PairList.Get(data, name)
    }

    /** `getAll`: the values of the entries named `name`, in insertion order. */
    function GetAll(name: string): (r: seq<V>)
      reads this
      ensures r != [] <==> Has(name)
      ensures forall j :: 0 <= j < |r| ==> (name, r[j]) in data
      ensures forall i :: 0 <= i < |data| && data[i].0 == name ==> data[i].1 in r
    {
      PairList.GetAllComplete(data, name);
      PairList.GetAll(data, name)
    }

    /** `has`: some entry is named `name`. */
    predicate Has(name: string)
      reads this
      ensures Has(name) <==> exists i :: 0 <= i < |data| && data[i].0 == name
    {
      PairList.Has(data, name)
    }

    /**
     * `set`: overwrites only the FIRST entry named `name`, at its index,
     * leaving later entries with that name in place; appends when there is none.
     */
    method Set(name: string, value: V)
      modifies this
      ensures data == PairList.Set(old(data), name, value)
      ensures Get(name) == Some(value)
      ensures old(Has(name)) ==> |data| == |old(data)| && GetAll(name) == [value] + old(GetAll(name))[1..]
      ensures !old(Has(name)) ==> data == old(data) + [(name, value)]
    {
      var index := PairList.IndexOf(data, name);
      if index != -1 {
        data := data[index := (name, value)];
      } else {
        data := data + [(name, value)];
      }
      PairList.SetQueries(old(data), name, value);
    }

    /** `keys()`: the names, in order. */
    function Keys(): (r: seq<string>)
      reads this
      ensures |r| == |data| && forall i :: 0 <= i < |data| ==> r[i] == data[i].0
    {
      PairList.Keys(data)
    }

    /** `values()`: the values, in order. */
    function Values(): (r: seq<V>)
      reads this
      ensures |r| == |data| && forall i :: 0 <= i < |data| ==> r[i] == data[i].1
    {
      PairList.Values(data)
    }
  }
}
