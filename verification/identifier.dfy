/**
 Post-processing of the labels produced by the MobileNet classifier, whose
 identifiers carry a leading class code separated by a space
 (for example "n02123045 tabby, tabby cat").
 */
module Identifier {
  import opened Wrappers

  /** `s.firstIndex(of: c)`: the position of the first occurrence of `c`. */
  function FirstIndexOf(s: string, c: char): (r: Option<nat>)
    ensures r.None? <==> c !in s
    ensures r.Some? ==> r.value < |s| && s[r.value] == c && c !in s[..r.value]
  {
    if |s| == 0 then None
    else if s[0] == c then Some(0)
    else
      match FirstIndexOf(s[1..], c)
      case None => None
      case Some(i) =>
        assert s[..i + 1] == [s[0]] + s[1..][..i];
        Some(i + 1)
  }

  /** `processMobileNetIdentifier`: drop everything up to and including the
      first space; an identifier without a space is returned unchanged.
      The result is what follows the first space, so the input is recovered
      as `head + " " + result` with a space-free `head`. */
  function ProcessMobileNetIdentifier(id: string): (r: string)
    ensures ' ' !in id ==> r == id
    ensures ' ' in id ==>
              && |r| < |id|
              && var k := |id| - |r| - 1;
                 && id == id[..k] + [' '] + r
                 && ' ' !in id[..k]
  {
    match FirstIndexOf(id, ' ')
    case None => id
    case Some(i) =>
      assert id == id[..i] + [' '] + id[i + 1..];
      id[i + 1..]
  }

  /** Any split of an identifier at a space with a space-free head determines
      the processed identifier: it is the tail. */
  lemma SplitAtFirstSpace(id: string, head: string, tail: string)
    requires id == head + [' '] + tail
    requires ' ' !in head
    ensures ProcessMobileNetIdentifier(id) == tail
  {
    var i := |head|;
    assert id[i] == ' ';
    match FirstIndexOf(id, ' ')
    case None =>
    case Some(j) =>
      assert id[..i] == head;
      assert j == i;
      assert id[j + 1..] == tail;
  }

  /** The processed identifier is a suffix of the raw one. */
  lemma ProcessedIsSuffix(id: string)
    ensures var r := ProcessMobileNetIdentifier(id);
            |r| <= |id| && id[|id| - |r|..] == r
  {
    var r := ProcessMobileNetIdentifier(id);
    if ' ' in id {
      var k := |id| - |r| - 1;
      assert id[k + 1..] == r;
    }
  }

  /** The example of the class-code convention: "123 tabby cat" is shown as
      "tabby cat", and an identifier without a space is left alone. */
  lemma ExampleIdentifiers()
    ensures ProcessMobileNetIdentifier("123 tabby cat") == "tabby cat"
    ensures ProcessMobileNetIdentifier("tabby") == "tabby"
  {
    SplitAtFirstSpace("123 tabby cat", "123", "tabby cat");
  }
}
