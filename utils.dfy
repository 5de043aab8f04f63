/** Identifier helpers of the dashboard: prefixers and label-to-id conversion. */
module Utils {

  /** make_prefixer: a closure that puts `prefix` in front of its argument. */
  function MakePrefixer(prefix: string): (f: string -> string)
    ensures forall s :: |f(s)| == |prefix| + |s|
    ensures forall s :: f(s)[..|prefix|] == prefix && f(s)[|prefix|..] == s
  {
    s => prefix + s
  }

  /** make_page_id_func: ids of a page are "<page name>-<local id>". */
  function MakePageIdFunc(pageName: string): (f: string -> string)
    ensures forall s :: f(s) == pageName + "-" + s
  {
    var f := MakePrefixer(pageName + "-");
    assert forall s :: f(s) == pageName + "-" + s by {
      forall s ensures f(s) == pageName + "-" + s {
        var p := pageName + "-";
        assert f(s)[..|p|] == p && f(s)[|p|..] == s;
        assert f(s) == f(s)[..|p|] + f(s)[|p|..];
      }
    }
    f
  }

  /** Python's str.lower() on one character; only ASCII letters are mapped. */
  function LowerChar(c: char): char {
    if 'A' <= c <= 'Z' then (c as int - 'A' as int + 'a' as int) as char else c
  }

  predicate IsUpper(c: char) {
    'A' <= c <= 'Z'
  }

  /** str.lower() */
  function Lower(s: string): (r: string)
    ensures |r| == |s|
    ensures forall i :: 0 <= i < |s| ==> r[i] == LowerChar(s[i])
  {
    if s == [] then [] else [LowerChar(s[0])] + Lower(s[1..])
  }

  /** str.replace(" ", "-") */
  function ReplaceSpaces(s: string): (r: string)
    ensures |r| == |s|
    ensures forall i :: 0 <= i < |s| ==> r[i] == if s[i] == ' ' then '-' else s[i]
  {
    if s == [] then [] else [if s[0] == ' ' then '-' else s[0]] + ReplaceSpaces(s[1..])
  }

  /** make_id_from_label: lower-case the label and turn its spaces into dashes. */
  function MakeIdFromLabel(caption: string): (id: string)
    ensures |id| == |caption|
    ensures ' ' !in id
    ensures forall i :: 0 <= i < |id| ==> !IsUpper(id[i])
    ensures forall i :: 0 <= i < |id| && caption[i] != ' ' && !IsUpper(caption[i]) ==> id[i] == caption[i]
    ensures forall i :: 0 <= i < |id| && IsUpper(caption[i]) ==> id[i] == LowerChar(caption[i])
    ensures forall i :: 0 <= i < |id| && caption[i] == ' ' ==> id[i] == '-'
  {
    ReplaceSpaces(Lower(caption))
  }

  /** Applying make_id_from_label to an id changes nothing. */
  lemma MakeIdFromLabelIdempotent(caption: string)
    ensures MakeIdFromLabel(MakeIdFromLabel(caption)) == MakeIdFromLabel(caption)
  {
    var id := MakeIdFromLabel(caption);
    var id2 := MakeIdFromLabel(id);
    assert forall i :: 0 <= i < |id| ==> id2[i] == id[i];
  }
}
