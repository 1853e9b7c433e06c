/** The import pipeline of main.ts:60-86: `importConversation` fetches one conversation,
    makes sure the import folder exists, renders the note and creates it in the vault;
    `importByLabel` searches by label and imports every result in turn. Every await is
    modelled as one sequential step. The memory service and the vault are oracles held
    in an Env; each call's observable effects (service calls, vault calls and notices) are
    recorded in order. */
module Import {
  import opened Wrappers
  import opened Text
  import opened Render
  import opened Paths
  import opened PluginSettings

  /** A search hit; only its id is used by the import. */
  datatype Summary = Summary(id: string, labelText: string, createdAt: string)

  /** The vault: the folders that exist and the notes stored at each path. */
  datatype Vault = Vault(folders: set<string>, files: map<string, string>)

  /** The collaborators the pipeline awaits. The memory service answers `getConversation`
      and `search` from their arguments; the vault's `createFolder` and `create` may resolve
      or reject depending on the vault they act on (an existing path, say). */
  datatype Env = Env(
    getConversation: string -> Result<Conversation, string>,
    search: (string, nat) -> Result<seq<Summary>, string>,
    createFolder: (Vault, string) -> Outcome<string>,
    create: (Vault, string, string) -> Outcome<string>)

  /** One observable effect: a call to the service or the vault, or a notice shown. */
  datatype Effect =
    | Fetch(id: string)
    | Search(query: string, limit: nat)
    | MakeFolder(path: string)
    | CreateFile(path: string, content: string)
    | Notify(text: string)

  /** The vault after a call and the effects of that call, in order. */
  datatype Step = Step(vault: Vault, effects: seq<Effect>)

  /** The page size `importByLabel` asks the search for. */
  const SearchLimit: nat := 50

  function ImportedNotice(path: string): string {
    "Imported: " + path
  }

  function ImportFailedNotice(message: string): string {
    "Failed to import: " + message
  }

  function BatchNotice(total: nat): string {
    "Imported " + NatToString(total) + " conversations"
  }

  function SearchFailedNotice(message: string): string {
    "Failed: " + message
  }

  // ---------------------------------------------------------------------------
  // Reading a trace

  /** The ids passed to `getConversation`, in call order. */
  function FetchedIds(effects: seq<Effect>): seq<string> {
    if effects == [] then []
    else (if effects[0].Fetch? then [effects[0].id] else []) + FetchedIds(effects[1..])
  }

  /** The texts of the notices shown, in order. */
  function Notices(effects: seq<Effect>): seq<string> {
    if effects == [] then []
    else (if effects[0].Notify? then [effects[0].text] else []) + Notices(effects[1..])
  }

  /** The `create(path, content)` calls made, in order. */
  function Creations(effects: seq<Effect>): seq<(string, string)> {
    if effects == [] then []
    else (if effects[0].CreateFile? then [(effects[0].path, effects[0].content)] else []) + Creations(effects[1..])
  }

  lemma {:induction false} FetchedIdsAppend(a: seq<Effect>, b: seq<Effect>)
    ensures FetchedIds(a + b) == FetchedIds(a) + FetchedIds(b)
    decreases |a|
  {
    if a != [] {
      assert (a + b)[1..] == a[1..] + b;
      FetchedIdsAppend(a[1..], b);
    } else {
      assert a + b == b;
    }
  }

  lemma {:induction false} NoticesAppend(a: seq<Effect>, b: seq<Effect>)
    ensures Notices(a + b) == Notices(a) + Notices(b)
    decreases |a|
  {
    if a != [] {
      assert (a + b)[1..] == a[1..] + b;
      NoticesAppend(a[1..], b);
    } else {
      assert a + b == b;
    }
  }

  lemma {:induction false} CreationsAppend(a: seq<Effect>, b: seq<Effect>)
    ensures Creations(a + b) == Creations(a) + Creations(b)
    decreases |a|
  {
    if a != [] {
      assert (a + b)[1..] == a[1..] + b;
      CreationsAppend(a[1..], b);
    } else {
      assert a + b == b;
    }
  }

  /** The trace of an import whose fetch failed: the fetch and its notice, no `create`. */
  lemma FailedTrace(id: string, text: string)
    ensures var failed := [Fetch(id), Notify(text)];
            FetchedIds(failed) == [id] && Notices(failed) == [text] && Creations(failed) == []
  {
    var failed := [Fetch(id), Notify(text)];
    assert failed[1..] == [Notify(text)];
    assert failed[1..][1..] == [];
    assert FetchedIds(failed[1..]) == [];
    assert Notices(failed[1..]) == [text];
    assert Creations(failed[1..]) == [];
  }

  /** The trace of an import that got its conversation: the fetch, the folder and `create`
      calls, and a notice. */
  lemma FullTrace(id: string, folder: string, path: string, note: string, text: string)
    ensures var full := [Fetch(id), MakeFolder(folder), CreateFile(path, note)] + [Notify(text)];
            FetchedIds(full) == [id] && Notices(full) == [text] && Creations(full) == [(path, note)]
  {
    var full := [Fetch(id), MakeFolder(folder), CreateFile(path, note)] + [Notify(text)];
    assert full[1..] == [MakeFolder(folder), CreateFile(path, note), Notify(text)];
    assert full[1..][1..] == [CreateFile(path, note), Notify(text)];
    assert full[1..][1..][1..] == [Notify(text)];
    assert full[1..][1..][1..][1..] == [];
    assert FetchedIds(full[1..][1..][1..]) == [];
    assert FetchedIds(full[1..][1..]) == [];
    assert FetchedIds(full[1..]) == [];
    assert Notices(full[1..][1..][1..]) == [text];
    assert Notices(full[1..][1..]) == [text];
    assert Notices(full[1..]) == [text];
    assert Creations(full[1..][1..][1..]) == [];
    assert Creations(full[1..][1..]) == [(path, note)];
    assert Creations(full[1..]) == [(path, note)];
  }

  /** The ids of the search hits, in result order. */
  function Ids(results: seq<Summary>): seq<string> {
    seq(|results|, i requires 0 <= i < |results| => results[i].id)
  }

  lemma IdsCons(results: seq<Summary>)
    requires results != []
    ensures Ids(results) == [results[0].id] + Ids(results[1..])
  {
  }

  /** The `create(path, note)` calls a batch over `results` makes, in order: one for each
      hit the service hands a conversation for, at the path built from the hit's id and
      holding that conversation rendered; nothing for a hit whose fetch fails. */
  function CreatedFor(env: Env, settings: Settings, results: seq<Summary>): seq<(string, string)> {
    if results == [] then []
    else
      var id := results[0].id;
      var here := match env.getConversation(id)
        case Success(conv) => [(ImportPath(settings.importFolder, conv.labelText, id), FormatConversation(conv))]
        case Failure(_) => [];
      here + CreatedFor(env, settings, results[1..])
  }

  // ---------------------------------------------------------------------------
  // importConversation

  /** The vault after `createFolder(folder)`, whose outcome the import ignores. */
  function AfterCreateFolder(env: Env, folder: string, vault: Vault): (v: Vault)
    ensures v.files == vault.files
    ensures vault.folders <= v.folders <= vault.folders + {folder}
  {
    match env.createFolder(vault, folder)
    case Pass => vault.(folders := vault.folders + {folder})
    case Fail(_) => vault
  }

  /** `importConversation(id)`. A failed fetch shows one failure notice and touches
      nothing else. A successful fetch leads, whatever `createFolder` does, to exactly one
      `create` of the rendered note at the path built from the REQUESTED id, and then to
      one notice: the path when `create` resolves, the error when it rejects. Nothing is
      thrown to the caller in any case. */
  function ImportConversation(env: Env, settings: Settings, id: string, vault: Vault): (r: Step)
    ensures FetchedIds(r.effects) == [id]
    ensures |Notices(r.effects)| == 1 && r.effects[|r.effects| - 1].Notify?
    ensures |Creations(r.effects)| == (if env.getConversation(id).Success? then 1 else 0)
    ensures env.getConversation(id).Failure? ==>
              && r.effects == [Fetch(id), Notify(ImportFailedNotice(env.getConversation(id).error))]
              && r.vault == vault
    ensures env.getConversation(id).Success? ==>
              var conv, folder := env.getConversation(id).value, settings.importFolder;
              var path, note := ImportPath(folder, conv.labelText, id), FormatConversation(conv);
              var v := AfterCreateFolder(env, folder, vault);
              && |r.effects| == 4
              && r.effects[..3] == [Fetch(id), MakeFolder(folder), CreateFile(path, note)]
              && Creations(r.effects) == [(path, note)]
              && r.vault.folders == v.folders
              && (env.create(v, path, note).Pass? ==>
                    r.vault.files == vault.files[path := note] && Notices(r.effects) == [ImportedNotice(path)])
              && (env.create(v, path, note).Fail? ==>
                    r.vault.files == vault.files
                    && Notices(r.effects) == [ImportFailedNotice(env.create(v, path, note).error)])
  {
    match env.getConversation(id)
    case Failure(message) =>
      FailedTrace(id, ImportFailedNotice(message));
      Step(vault, [Fetch(id), Notify(ImportFailedNotice(message))])
    case Success(conv) =>
      var folder := settings.importFolder;
      var v := AfterCreateFolder(env, folder, vault);
      var path := ImportPath(folder, conv.labelText, id);
      var note := FormatConversation(conv);
      var calls := [Fetch(id), MakeFolder(folder), CreateFile(path, note)];
      match env.create(v, path, note)
      case Pass =>
        FullTrace(id, folder, path, note, ImportedNotice(path));
        Step(v.(files := v.files[path := note]), calls + [Notify(ImportedNotice(path))])
      case Fail(message) =>
        FullTrace(id, folder, path, note, ImportFailedNotice(message));
        Step(v, calls + [Notify(ImportFailedNotice(message))])
  }

  // ---------------------------------------------------------------------------
  // importByLabel

  /** The `for (const conv of results)` loop: each hit imported in order, each on the vault
      the previous one left. No hit can stop the loop: every hit is fetched exactly once,
      in result order. */
  function ImportEach(env: Env, settings: Settings, results: seq<Summary>, vault: Vault): (r: Step)
    ensures FetchedIds(r.effects) == Ids(results)
    decreases |results|
  {
    if results == [] then Step(vault, [])
    else
      var first := ImportConversation(env, settings, results[0].id, vault);
      var rest := ImportEach(env, settings, results[1..], first.vault);
      FetchedIdsAppend(first.effects, rest.effects);
      IdsCons(results);
      Step(rest.vault, first.effects + rest.effects)
  }

  /** Every hit of the loop gets exactly one notice. */
  lemma {:induction false} ImportEachNotices(env: Env, settings: Settings, results: seq<Summary>, vault: Vault)
    ensures |Notices(ImportEach(env, settings, results, vault).effects)| == |results|
    decreases |results|
  {
    if results != [] {
      var first := ImportConversation(env, settings, results[0].id, vault);
      var rest := ImportEach(env, settings, results[1..], first.vault);
      ImportEachNotices(env, settings, results[1..], first.vault);
      NoticesAppend(first.effects, rest.effects);
    }
  }

  /** The loop's `create` calls are exactly the rendered notes of the hits whose fetch
      succeeds, in result order, each at the path built from the hit's id. */
  lemma {:induction false} ImportEachCreations(env: Env, settings: Settings, results: seq<Summary>, vault: Vault)
    ensures Creations(ImportEach(env, settings, results, vault).effects) == CreatedFor(env, settings, results)
    decreases |results|
  {
    if results != [] {
      var first := ImportConversation(env, settings, results[0].id, vault);
      var rest := ImportEach(env, settings, results[1..], first.vault);
      ImportEachCreations(env, settings, results[1..], first.vault);
      CreationsAppend(first.effects, rest.effects);
    }
  }

  /** What the loop's trace shows: every hit fetched exactly once in result order, one
      notice per hit, and `create` called with exactly the rendered notes of the hits the
      service hands a conversation for. */
  lemma ImportEachTrace(env: Env, settings: Settings, results: seq<Summary>, vault: Vault)
    ensures var r := ImportEach(env, settings, results, vault);
            && FetchedIds(r.effects) == Ids(results)
            && |Notices(r.effects)| == |results|
            && Creations(r.effects) == CreatedFor(env, settings, results)
  {
    ImportEachNotices(env, settings, results, vault);
    ImportEachCreations(env, settings, results, vault);
  }

  /** `importByLabel(label)`. A failed search shows one failure notice and fetches
      nothing. Otherwise every hit is fetched exactly once, in result order, whatever
      happens to the others, and a final notice reports the number of hits: the total,
      not how many imports succeeded. */
  function ImportByLabel(env: Env, settings: Settings, query: string, vault: Vault): (r: Step)
    ensures |r.effects| >= 2 && r.effects[0] == Search(query, SearchLimit)
    ensures env.search(query, SearchLimit).Failure? ==>
              && r.effects == [Search(query, SearchLimit), Notify(SearchFailedNotice(env.search(query, SearchLimit).error))]
              && r.vault == vault
    ensures env.search(query, SearchLimit).Success? ==>
              var results := env.search(query, SearchLimit).value;
              && FetchedIds(r.effects) == Ids(results)
              && |Notices(r.effects)| == |results| + 1
              && Creations(r.effects) == CreatedFor(env, settings, results)
              && r.effects[|r.effects| - 1] == Notify(BatchNotice(|results|))
  {
    match env.search(query, SearchLimit)
    case Failure(message) =>
      Step(vault, [Search(query, SearchLimit), Notify(SearchFailedNotice(message))])
    case Success(results) =>
      var each := ImportEach(env, settings, results, vault);
      ImportEachTrace(env, settings, results, vault);
      var effects := [Search(query, SearchLimit)] + each.effects + [Notify(BatchNotice(|results|))];
      FetchedIdsAppend([Search(query, SearchLimit)], each.effects);
      FetchedIdsAppend([Search(query, SearchLimit)] + each.effects, [Notify(BatchNotice(|results|))]);
      NoticesAppend([Search(query, SearchLimit)], each.effects);
      NoticesAppend([Search(query, SearchLimit)] + each.effects, [Notify(BatchNotice(|results|))]);
      CreationsAppend([Search(query, SearchLimit)], each.effects);
      CreationsAppend([Search(query, SearchLimit)] + each.effects, [Notify(BatchNotice(|results|))]);
      Step(each.vault, effects)
  }

  /** The loop of `importByLabel` as the source writes it: one pass over the hits,
      threading the vault and collecting the effects. It computes exactly ImportEach. */
  method RunImportEach(env: Env, settings: Settings, results: seq<Summary>, vault: Vault) returns (r: Step)
    ensures r == ImportEach(env, settings, results, vault)
  {
    var effects := [];
    var current := vault;
    var i := 0;
    while i < |results|
      invariant 0 <= i <= |results|
      invariant Step(current, effects) == ImportEach(env, settings, results[..i], vault)
    {
      ImportEachSnoc(env, settings, results, i, vault);
      var one := ImportConversation(env, settings, results[i].id, current);
      effects := effects + one.effects;
      current := one.vault;
      i := i + 1;
    }
    assert results[..i] == results;
    r := Step(current, effects);
  }

  /** One more turn of the loop: the hits up to and including `i` are the hits before it,
      then hit `i` on the vault they left. */
  lemma ImportEachSnoc(env: Env, settings: Settings, results: seq<Summary>, i: nat, vault: Vault)
    requires i < |results|
    ensures var before := ImportEach(env, settings, results[..i], vault);
            var one := ImportConversation(env, settings, results[i].id, before.vault);
            ImportEach(env, settings, results[..i + 1], vault) == Step(one.vault, before.effects + one.effects)
  {
    var before := ImportEach(env, settings, results[..i], vault);
    var one := ImportConversation(env, settings, results[i].id, before.vault);
    assert results[..i + 1] == results[..i] + [results[i]];
    ImportEachAppend(env, settings, results[..i], [results[i]], vault);
    assert ImportEach(env, settings, [results[i]], before.vault) == Step(one.vault, one.effects + []) by {
      assert [results[i]][1..] == [];
    }
    assert one.effects + [] == one.effects;
  }

  /** The hits from `i` on are hit `i`, then the hits after it on the vault hit `i` left. */
  lemma ImportEachUnfold(env: Env, settings: Settings, results: seq<Summary>, i: nat, vault: Vault)
    requires i < |results|
    ensures var one := ImportConversation(env, settings, results[i].id, vault);
            var rest := ImportEach(env, settings, results[i + 1..], one.vault);
            ImportEach(env, settings, results[i..], vault) == Step(rest.vault, one.effects + rest.effects)
  {
    assert results[i..][0] == results[i];
    assert results[i..][1..] == results[i + 1..];
  }

  /** `importByLabel` as the source writes it: the search, the loop, the closing notice.
      A failed search shows its error and touches nothing. Otherwise the search comes
      first, every hit is fetched once in result order, each hit and the batch get one
      notice each, `create` is called with exactly the rendered notes of the hits that
      could be fetched, and the last notice reports the number of hits. */
  method RunImportByLabel(env: Env, settings: Settings, query: string, vault: Vault) returns (r: Step)
    ensures env.search(query, SearchLimit).Failure? ==>
              r == Step(vault, [Search(query, SearchLimit), Notify(SearchFailedNotice(env.search(query, SearchLimit).error))])
    ensures env.search(query, SearchLimit).Success? ==>
              var results := env.search(query, SearchLimit).value;
              && |r.effects| >= 2 && r.effects[0] == Search(query, SearchLimit)
              && FetchedIds(r.effects) == Ids(results)
              && |Notices(r.effects)| == |results| + 1
              && Creations(r.effects) == CreatedFor(env, settings, results)
              && r.effects[|r.effects| - 1] == Notify(BatchNotice(|results|))
  {
    match env.search(query, SearchLimit)
    case Failure(message) =>
      r := Step(vault, [Search(query, SearchLimit), Notify(SearchFailedNotice(message))]);
    case Success(results) =>
      var each := RunImportEach(env, settings, results, vault);
      r := Step(each.vault, [Search(query, SearchLimit)] + each.effects + [Notify(BatchNotice(|results|))]);
      assert r == ImportByLabel(env, settings, query, vault);
  }

  // ---------------------------------------------------------------------------
  // Batch properties

  /** The loop is a fold: importing `a + b` is importing `a`, then `b` on the vault that
      left. */
  lemma {:induction false} ImportEachAppend(env: Env, settings: Settings, a: seq<Summary>, b: seq<Summary>, vault: Vault)
    ensures var first := ImportEach(env, settings, a, vault);
            var second := ImportEach(env, settings, b, first.vault);
            ImportEach(env, settings, a + b, vault) == Step(second.vault, first.effects + second.effects)
    decreases |a|
  {
    if a == [] {
      assert a + b == b;
    } else {
      var one := ImportConversation(env, settings, a[0].id, vault);
      assert (a + b)[0] == a[0];
      assert (a + b)[1..] == a[1..] + b;
      ImportEachAppend(env, settings, a[1..], b, one.vault);
      var first' := ImportEach(env, settings, a[1..], one.vault);
      var second := ImportEach(env, settings, b, first'.vault);
      assert one.effects + (first'.effects + second.effects) == (one.effects + first'.effects) + second.effects;
    }
  }

  /** A failing hit does not stop the batch: the effects of hit `i` are exactly those of
      importing it alone on the vault the earlier hits left, and the hits after it are
      still imported. */
  lemma ImportEachItem(env: Env, settings: Settings, results: seq<Summary>, vault: Vault, i: nat)
    requires i < |results|
    ensures var before := ImportEach(env, settings, results[..i], vault);
            var item := ImportConversation(env, settings, results[i].id, before.vault);
            var after := ImportEach(env, settings, results[i + 1..], item.vault);
            ImportEach(env, settings, results, vault).effects == before.effects + item.effects + after.effects
  {
    var before := ImportEach(env, settings, results[..i], vault);
    ImportEachSplitAt(env, settings, results, vault, i);
    ImportEachUnfold(env, settings, results, i, before.vault);
  }

  /** The batch cut at hit `i`: the hits before it, then the rest on the vault they left. */
  lemma ImportEachSplitAt(env: Env, settings: Settings, results: seq<Summary>, vault: Vault, i: nat)
    requires i <= |results|
    ensures var before := ImportEach(env, settings, results[..i], vault);
            ImportEach(env, settings, results, vault).effects
            == before.effects + ImportEach(env, settings, results[i..], before.vault).effects
  {
    assert results == results[..i] + results[i..];
    ImportEachAppend(env, settings, results[..i], results[i..], vault);
  }

  /** The batch's closing notice depends on the number of hits only: two services that
      return the same number of hits give the same final notice, however many of the
      imports succeed. */
  lemma BatchNoticeCountsHits(env: Env, env': Env, settings: Settings, query: string, vault: Vault, vault': Vault)
    requires env.search(query, SearchLimit).Success? && env'.search(query, SearchLimit).Success?
    requires |env.search(query, SearchLimit).value| == |env'.search(query, SearchLimit).value|
    ensures var r, r' := ImportByLabel(env, settings, query, vault), ImportByLabel(env', settings, query, vault');
            r.effects[|r.effects| - 1] == r'.effects[|r'.effects| - 1]
  {
  }

  /** The batch example: three hits whose second fetch fails. All three are fetched in
      order, `create` is called for the first and third conversations only, each at the
      path built from its hit's id, and the final notice reports three. */
  lemma ThreeHitsSecondFails(env: Env, settings: Settings, vault: Vault)
    requires env.search("Project:AI", SearchLimit)
          == Success([Summary("conv-1", "Project:AI #1", ""), Summary("conv-2", "Project:AI #2", ""),
                      Summary("conv-3", "Project:AI #3", "")])
    requires env.getConversation("conv-1").Success? && env.getConversation("conv-3").Success?
    requires env.getConversation("conv-2").Failure?
    ensures var r := ImportByLabel(env, settings, "Project:AI", vault);
            var c1, c3 := env.getConversation("conv-1").value, env.getConversation("conv-3").value;
            && FetchedIds(r.effects) == ["conv-1", "conv-2", "conv-3"]
            && Creations(r.effects)
               == [(ImportPath(settings.importFolder, c1.labelText, "conv-1"), FormatConversation(c1)),
                   (ImportPath(settings.importFolder, c3.labelText, "conv-3"), FormatConversation(c3))]
            && r.effects[|r.effects| - 1] == Notify("Imported 3 conversations")
  {
    var results := env.search("Project:AI", SearchLimit).value;
    IdsOfThree(results);
    CreatedForSkipsFailure(env, settings, results);
    BatchNoticeOfThree();
  }

  lemma IdsOfThree(results: seq<Summary>)
    requires |results| == 3
    requires results[0].id == "conv-1" && results[1].id == "conv-2" && results[2].id == "conv-3"
    ensures Ids(results) == ["conv-1", "conv-2", "conv-3"]
  {
  }

  lemma BatchNoticeOfThree()
    ensures BatchNotice(3) == "Imported 3 conversations"
  {
    assert NatToString(3) == "3";
  }

  /** The `create` calls of the example batch: the first and third hits only. */
  lemma CreatedForSkipsFailure(env: Env, settings: Settings, results: seq<Summary>)
    requires |results| == 3
    requires results[0].id == "conv-1" && results[1].id == "conv-2" && results[2].id == "conv-3"
    requires env.getConversation("conv-1").Success? && env.getConversation("conv-3").Success?
    requires env.getConversation("conv-2").Failure?
    ensures var c1, c3 := env.getConversation("conv-1").value, env.getConversation("conv-3").value;
            CreatedFor(env, settings, results)
            == [(ImportPath(settings.importFolder, c1.labelText, "conv-1"), FormatConversation(c1)),
                (ImportPath(settings.importFolder, c3.labelText, "conv-3"), FormatConversation(c3))]
  {
    var c1, c3 := env.getConversation("conv-1").value, env.getConversation("conv-3").value;
    var one := (ImportPath(settings.importFolder, c1.labelText, "conv-1"), FormatConversation(c1));
    var three := (ImportPath(settings.importFolder, c3.labelText, "conv-3"), FormatConversation(c3));
    var tail1, tail2 := results[1..], results[1..][1..];
    assert tail2[1..] == [];
    assert CreatedFor(env, settings, tail2) == [three] + [];
    assert CreatedFor(env, settings, tail1) == [] + [three];
    assert CreatedFor(env, settings, results) == [one] + [three];
  }

  /** The batch test as its mocks set it up: three hits, and every fetch resolving to the
      same conversation. The search asks for 50 hits, all three are fetched in order,
      `create` is called once per hit with the same note at three different paths, and
      the final notice reports three. */
  lemma ThreeHitsAllResolve(env: Env, settings: Settings, vault: Vault)
    requires env.search("Project:AI", SearchLimit)
          == Success([Summary("conv-1", "Project:AI #1", ""), Summary("conv-2", "Project:AI #2", ""),
                      Summary("conv-3", "Project:AI #3", "")])
    requires var conv := Conversation("conv-1", "Test", "2024-01-01", []);
             && env.getConversation("conv-1") == Success(conv)
             && env.getConversation("conv-2") == Success(conv)
             && env.getConversation("conv-3") == Success(conv)
    ensures var r := ImportByLabel(env, settings, "Project:AI", vault);
            var note := FormatConversation(Conversation("conv-1", "Test", "2024-01-01", []));
            && r.effects[0] == Search("Project:AI", 50)
            && FetchedIds(r.effects) == ["conv-1", "conv-2", "conv-3"]
            && Creations(r.effects)
               == [(ImportPath(settings.importFolder, "Test", "conv-1"), note),
                   (ImportPath(settings.importFolder, "Test", "conv-2"), note),
                   (ImportPath(settings.importFolder, "Test", "conv-3"), note)]
            && r.effects[|r.effects| - 1] == Notify("Imported 3 conversations")
  {
    var results := env.search("Project:AI", SearchLimit).value;
    IdsOfThree(results);
    CreatedForAllResolve(env, settings, results);
    BatchNoticeOfThree();
  }

  /** The `create` calls of the test batch: one per hit, all with the same note. */
  lemma CreatedForAllResolve(env: Env, settings: Settings, results: seq<Summary>)
    requires |results| == 3
    requires results[0].id == "conv-1" && results[1].id == "conv-2" && results[2].id == "conv-3"
    requires var conv := Conversation("conv-1", "Test", "2024-01-01", []);
             && env.getConversation("conv-1") == Success(conv)
             && env.getConversation("conv-2") == Success(conv)
             && env.getConversation("conv-3") == Success(conv)
    ensures var note := FormatConversation(Conversation("conv-1", "Test", "2024-01-01", []));
            CreatedFor(env, settings, results)
            == [(ImportPath(settings.importFolder, "Test", "conv-1"), note),
                (ImportPath(settings.importFolder, "Test", "conv-2"), note),
                (ImportPath(settings.importFolder, "Test", "conv-3"), note)]
  {
    var note := FormatConversation(Conversation("conv-1", "Test", "2024-01-01", []));
    var one := (ImportPath(settings.importFolder, "Test", "conv-1"), note);
    var two := (ImportPath(settings.importFolder, "Test", "conv-2"), note);
    var three := (ImportPath(settings.importFolder, "Test", "conv-3"), note);
    var tail1, tail2 := results[1..], results[1..][1..];
    assert tail2[1..] == [];
    assert CreatedFor(env, settings, tail2) == [three] + [];
    assert CreatedFor(env, settings, tail1) == [two] + [three];
    assert CreatedFor(env, settings, results) == [one] + [two, three];
  }

  /** An empty result list means no fetch, no note, and a notice reporting zero. */
  lemma EmptySearchFetchesNothing(env: Env, settings: Settings, query: string, vault: Vault)
    requires env.search(query, SearchLimit) == Success([])
    ensures var r := ImportByLabel(env, settings, query, vault);
            && FetchedIds(r.effects) == []
            && Creations(r.effects) == []
            && r.vault == vault
            && r.effects == [Search(query, SearchLimit), Notify("Imported 0 conversations")]
  {
    assert NatToString(0) == "0";
    assert BatchNotice(0) == "Imported 0 conversations";
    assert ImportEach(env, settings, [], vault) == Step(vault, []);
    assert [Search(query, SearchLimit)] + [] + [Notify(BatchNotice(0))]
        == [Search(query, SearchLimit), Notify(BatchNotice(0))];
  }

  /** With the default settings, the filename test's conversation lands in the default
      folder under its label and the first eight characters of the requested id. */
  lemma DefaultFolderImport(env: Env, vault: Vault)
    requires env.getConversation("conv-12345678-abcd").Success?
    requires env.getConversation("conv-12345678-abcd").value.labelText == "My Test"
    ensures var r := ImportConversation(env, LoadSettings(None), "conv-12345678-abcd", vault);
            |Creations(r.effects)| == 1
            && Creations(r.effects)[0].0 == "Sekha Conversations/My Test_conv-123.md"
  {
    ImportPathExample();
  }
}
