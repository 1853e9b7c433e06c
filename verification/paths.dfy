/** Where an imported note goes: `${folder}/${conv.label}_${id.substring(0, 8)}.md`
    (main.ts:66). The id in the name is the id the import was asked for, not the id the
    service returned. */
module Paths {
  import opened Text

  /** How many leading characters of the requested id go into a note's file name. */
  const IdPrefixLength: nat := 8

  /** `id.substring(0, 8)`: the first eight characters, or the whole id when it is shorter. */
  function IdPrefix(id: string): (p: string)
    ensures |p| == Min(IdPrefixLength, |id|)
    ensures p == id[..|p|]
    ensures |id| <= IdPrefixLength ==> p == id
  {
    JsSubstring(id, 0, IdPrefixLength)
  }

  /** The path of the note imported for `requestedId` with the given label. */
  function ImportPath(folder: string, labelText: string, requestedId: string): (path: string)
    ensures |path| == |folder| + 1 + |labelText| + 1 + Min(IdPrefixLength, |requestedId|) + 3
    ensures path[..|folder| + 1] == folder + "/"
    ensures path[|path| - 3..] == ".md"
  {
    folder + "/" + labelText + "_" + IdPrefix(requestedId) + ".md"
  }

  /** The id of the filename test: a long id keeps only its first eight characters,
      `conv-123`. */
  lemma ImportPathExample()
    ensures ImportPath("Sekha Conversations", "My Test", "conv-12345678-abcd")
         == "Sekha Conversations/My Test_conv-123.md"
  {
    assert IdPrefix("conv-12345678-abcd") == "conv-123";
  }

  /** The filename test expects the name to contain `My Test_conv-1234`, nine characters of
      the id; the eight-character prefix never produces it (the path holds no `4`). */
  lemma ImportPathLacksNineCharacterPrefix()
    ensures !Contains(ImportPath("Sekha Conversations", "My Test", "conv-12345678-abcd"), "My Test_conv-1234")
  {
    ImportPathExample();
    NoOccurrenceWithout("Sekha Conversations/My Test_conv-123.md", "My Test_conv-1234", '4');
  }

  /** With folder and label fixed, two requested ids give the same path exactly when their
      first eight characters agree: ids that differ only after the eighth character
      collide, and ids that differ earlier never do. */
  lemma ImportPathCollision(folder: string, labelText: string, a: string, b: string)
    ensures ImportPath(folder, labelText, a) == ImportPath(folder, labelText, b)
        <==> IdPrefix(a) == IdPrefix(b)
  {
    var pa, pb := ImportPath(folder, labelText, a), ImportPath(folder, labelText, b);
    var head := folder + "/" + labelText + "_";
    if pa == pb {
      assert pa == head + IdPrefix(a) + ".md";
      assert pb == head + IdPrefix(b) + ".md";
      assert |IdPrefix(a)| == |IdPrefix(b)|;
      assert pa[|head|..|pa| - 3] == IdPrefix(a);
      assert pb[|head|..|pb| - 3] == IdPrefix(b);
    }
  }
}
