/** The image branch of `generate_bytez_task`: the dynamically typed output of
    an image model (a string, a list or a dict) turned into a list of URLs. */
module ImageOutput {

  /** A JSON-like Python value. */
  datatype Value =
    | Null
    | Bool(b: bool)
    | Num(n: int)
    | Str(s: string)
    | List(items: seq<Value>)
    | Dict(fields: map<string, Value>)

  /** What one list item contributes: a string itself, a dict the value under
      its "url" key (whatever that value is), anything else nothing. */
  function ItemUrls(item: Value): (r: seq<Value>)
    ensures |r| <= 1
    ensures item.Str? ==> r == [item]
    ensures item.Dict? ==> (r != [] <==> "url" in item.fields) && (r != [] ==> r == [item.fields["url"]])
    ensures !item.Str? && !item.Dict? ==> r == []
  {
    match item
    case Str(_) => [item]
    case Dict(fields) => if "url" in fields then [fields["url"]] else []
    case _ => []
  }

  /** The list branch, item by item in order. */
  function ListUrls(items: seq<Value>): (r: seq<Value>)
    ensures |r| <= |items|
  {
    if items == [] then []
    else ListUrls(items[..|items| - 1]) + ItemUrls(items[|items| - 1])
  }

  /** The URL list for a whole output: a string becomes a one-element list, a
      dict contributes its "url" only when that is a string, and any other
      shape yields nothing. */
  function ImageUrls(output: Value): (r: seq<Value>)
    ensures !output.List? ==> |r| <= 1 && forall v :: v in r ==> v.Str?
    ensures output.Str? ==> r == [output]
    ensures output.Dict? ==> (r != [] <==> "url" in output.fields && output.fields["url"].Str?)
    ensures output.Dict? && r != [] ==> r == [output.fields["url"]]
    ensures output.Null? || output.Bool? || output.Num? ==> r == []
  {
    match output
    case Str(_) => [output]
    case List(items) => ListUrls(items)
    case Dict(fields) => if "url" in fields && fields["url"].Str? then [fields["url"]] else []
    case _ => []
  }

  /** The normalisation loop as the task runs it. */
  method NormalizeImageOutput(output: Value) returns (urls: seq<Value>)
    ensures urls == ImageUrls(output)
  {
    urls := [];
    if output.Str? {
      urls := [output];
    } else if output.List? {
      var items := output.items;
      for i := 0 to |items|
        invariant urls == ListUrls(items[..i])
      {
        assert items[..i + 1][..i] == items[..i];
        var item := items[i];
        if item.Str? {
          urls := urls + [item];
        } else if item.Dict? && "url" in item.fields {
          urls := urls + [item.fields["url"]];
        }
      }
      assert items[..|items|] == items;
    } else if output.Dict? && "url" in output.fields && output.fields["url"].Str? {
      urls := [output.fields["url"]];
    }
  }

  /** The list branch keeps order: it distributes over concatenation. */
  lemma {:induction false} ListUrlsAppend(a: seq<Value>, b: seq<Value>)
    ensures ListUrls(a + b) == ListUrls(a) + ListUrls(b)
    decreases |b|
  {
    if b == [] {
      assert a + b == a;
    } else {
      var c := b[..|b| - 1];
      assert (a + b)[..|a + b| - 1] == a + c;
      ListUrlsAppend(a, c);
    }
  }

  /** What the list branch yields, stated per value: exactly the string items
      and the "url" entries of dict items. */
  lemma {:induction false} ListUrlsMembers(items: seq<Value>)
    ensures forall v :: v in ListUrls(items) <==>
      exists i :: 0 <= i < |items| && (
        || (items[i].Str? && v == items[i])
        || (items[i].Dict? && "url" in items[i].fields && v == items[i].fields["url"]))
    decreases |items|
  {
    if items != [] {
      var init := items[..|items| - 1];
      ListUrlsMembers(init);
      forall v ensures v in ListUrls(items) <==>
        exists i :: 0 <= i < |items| && (
          || (items[i].Str? && v == items[i])
          || (items[i].Dict? && "url" in items[i].fields && v == items[i].fields["url"]))
      {
        if v in ListUrls(items) {
          if v in ListUrls(init) {
            var i :| 0 <= i < |init| && (
              || (init[i].Str? && v == init[i])
              || (init[i].Dict? && "url" in init[i].fields && v == init[i].fields["url"]));
            assert items[i] == init[i];
          } else {
            assert v in ItemUrls(items[|items| - 1]);
          }
        }
        if exists i :: 0 <= i < |items| && (
            || (items[i].Str? && v == items[i])
            || (items[i].Dict? && "url" in items[i].fields && v == items[i].fields["url"])) {
          var i :| 0 <= i < |items| && (
            || (items[i].Str? && v == items[i])
            || (items[i].Dict? && "url" in items[i].fields && v == items[i].fields["url"]));
          if i < |init| {
            assert init[i] == items[i];
          }
        }
      }
    }
  }

  /** A list of strings comes back unchanged. */
  lemma {:induction false} StringListUnchanged(items: seq<Value>)
    requires forall i :: 0 <= i < |items| ==> items[i].Str?
    ensures ImageUrls(List(items)) == items
    decreases |items|
  {
    if items != [] {
      StringListUnchanged(items[..|items| - 1]);
      assert items == items[..|items| - 1] + [items[|items| - 1]];
    }
  }
}
