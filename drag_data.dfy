/** The payload of a drag event (`event.dataTransfer`), as far as the
    components use it: `types`, `getData`, `setData` and `effectAllowed`. */
module DragData {

  /** The format under which a card carries its project id. */
  const PlainText: string := "text/plain"

  predicate Distinct(s: seq<string>) {
    forall i, j | 0 <= i < j < |s| :: s[i] != s[j]
  }

  /** `s` without any occurrence of `x`, the others in order. */
  function Without(s: seq<string>, x: string): (r: seq<string>)
    ensures forall y :: y in r <==> y in s && y != x
    ensures Distinct(s) ==> Distinct(r)
  {
    if s == [] then []
    else if s[0] == x then Without(s[1..], x)
    else
      var rest := Without(s[1..], x);
      assert Distinct(s) ==> Distinct(s[1..]) && s[0] !in s[1..] by {
        if Distinct(s) {
          forall i, j | 0 <= i < j < |s| - 1 ensures s[1..][i] != s[1..][j] {
            assert s[1..][i] == s[i + 1] && s[1..][j] == s[j + 1];
          }
        }
      }
      DistinctCons(s[0], rest);
      [s[0]] + rest
  }

  /** Putting a new element in front keeps a sequence free of duplicates. */
  lemma DistinctCons(a: string, s: seq<string>)
    ensures Distinct([a] + s) == (a !in s && Distinct(s))
  {
    var t := [a] + s;
    if a !in s && Distinct(s) {
      forall i, j | 0 <= i < j < |t| ensures t[i] != t[j] {
        if i > 0 {
          assert t[i] == s[i - 1] && t[j] == s[j - 1];
        } else {
          assert t[j] == s[j - 1];
        }
      }
    }
    if Distinct(t) {
      forall i, j | 0 <= i < j < |s| ensures s[i] != s[j] {
        assert t[i + 1] == s[i] && t[j + 1] == s[j];
      }
      forall k | 0 <= k < |s| ensures s[k] != a {
        assert t[0] == a && t[k + 1] == s[k];
      }
    }
  }

  class DataTransfer {
    /** The formats present, in the order they were set. */
    var types: seq<string>
    /** The string stored under each format. */
    var items: map<string, string>
    var effectAllowed: string

    ghost predicate Valid()
      reads this
    {
      && (forall f :: f in items <==> f in types)
      && Distinct(types)
    }

    /** An empty payload, as a drag starts with. */
    constructor ()
      ensures Valid() && types == [] && items == map[] && effectAllowed == "uninitialized"
    {
      types, items, effectAllowed := [], map[], "uninitialized";
    }

    /** `getData(format)`: the stored string, or the empty string when the
        format is absent. */
    function GetData(format: string): (r: string)
      reads this
      ensures format !in items ==> r == ""
    {
      if format in items then items[format] else ""
    }

    /** `setData(format, data)`: replaces the entry for `format`, which
        moves to the end of `types`; nothing else changes. */
    method SetData(format: string, data: string)
      requires Valid()
      modifies this
      ensures Valid()
      ensures items == old(items)[format := data]
      ensures types == Without(old(types), format) + [format]
      ensures effectAllowed == old(effectAllowed)
    {
      var rest := Without(types, format);
      forall i, j | 0 <= i < j < |rest| + 1 ensures (rest + [format])[i] != (rest + [format])[j] {
        assert (rest + [format])[i] == rest[i] && rest[i] in rest;
        if j < |rest| {
          assert (rest + [format])[j] == rest[j];
        }
      }
      types := rest + [format];
      items := items[format := data];
    }
  }
}
