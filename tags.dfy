/** The category tags shown under a system message (`createCategoryContainer`). */
module Tags {

  /** The five styling classes the tags cycle through, in order. */
  const Palette: seq<string> := ["info", "success", "warning", "danger", "primary"]

  /** One rendered tag: its text and its CSS class list. */
  datatype Tag = Tag(text: string, className: string)

  /** The class list of the tag at position `index` of its container. */
  function TagClass(index: nat): string {
    "category-tag " + Palette[index % |Palette|]
  }

  /** The tags the container holds for `categories`: one per category, in order. */
  function Container(categories: seq<string>): (tags: seq<Tag>)
    ensures |tags| == |categories|
    ensures forall i :: 0 <= i < |tags| ==> tags[i].text == categories[i]
  {
    seq(|categories|, i requires 0 <= i < |categories| => Tag(categories[i], TagClass(i)))
  }

  /** `createCategoryContainer`: appends one tag per category, styling each by its position. */
  method CreateCategoryContainer(categories: seq<string>) returns (tags: seq<Tag>)
    ensures tags == Container(categories)
  {
    tags := [];
    var index := 0;
    while index < |categories|
      invariant 0 <= index <= |categories|
      invariant tags == Container(categories[..index])
    {
      tags := tags + [Tag(categories[index], TagClass(index))];
      index := index + 1;
    }
    assert categories[..index] == categories;
  }

  /** Tag `i` and tag `i + 5` always share a style; tags `i` and `j` share one exactly when `i` and `j` agree modulo 5. */
  lemma StylesCycle(categories: seq<string>, i: nat, j: nat)
    requires i < |categories| && j < |categories|
    ensures j == i + 5 ==> Container(categories)[j].className == Container(categories)[i].className
    ensures Container(categories)[i].className == Container(categories)[j].className <==> i % 5 == j % 5
  {
    var ci, cj := Container(categories)[i].className, Container(categories)[j].className;
    assert ci == TagClass(i) && cj == TagClass(j);
    if ci == cj {
      assert ci[13..] == Palette[i % 5] && cj[13..] == Palette[j % 5];
      var x, y := i % 5, j % 5;
      assert x == 0 || x == 1 || x == 2 || x == 3 || x == 4;
      assert Palette[x] == Palette[y];
    }
  }
}
