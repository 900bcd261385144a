/** The Rollup configuration of the web-components bundles (`getRollupConfig`): an
    input map from output names to source files, each name carrying a direction and
    a build-mode suffix, and the ordered CSS and output plugin lists. Plugins are
    opaque tokens. */
module RollupConfig {
  import opened Wrappers

  /** `modeSuffixes[mode]`; an unknown mode reads `undefined`, which the template
      literal spells out. */
  function ModeSuffix(mode: string): string {
    if mode == "development" then ""
    else if mode == "production" then ".min"
    else "undefined"
  }

  /** `dirSuffixes[dir]`, likewise. */
  function DirSuffix(dir: string): string {
    if dir == "ltr" then ""
    else if dir == "rtl" then ".rtl"
    else "undefined"
  }

  /** The suffix every input name carries: direction first, then mode. */
  function Suffix(mode: string, dir: string): string {
    DirSuffix(dir) + ModeSuffix(mode)
  }

  /** The four known builds (development or production, left to right or right to
      left) give four different suffixes, so their output names never collide. */
  lemma SuffixDeterminesBuild(mode: string, dir: string, mode': string, dir': string)
    requires mode in {"development", "production"} && mode' in {"development", "production"}
    requires dir in {"ltr", "rtl"} && dir' in {"ltr", "rtl"}
    ensures Suffix(mode, dir) == Suffix(mode', dir') <==> mode == mode' && dir == dir'
  {
    var s, s' := Suffix(mode, dir), Suffix(mode', dir');
    assert |s| == (if dir == "rtl" then 4 else 0) + (if mode == "production" then 4 else 0);
    assert |s'| == (if dir' == "rtl" then 4 else 0) + (if mode' == "production" then 4 else 0);
    if |s| == 4 && |s'| == 4 && s == s' {
      assert s[1] == s'[1];
    }
  }

  /** One assignment `inputs[<base><suffix>] = <path>`, before the suffix is added. */
  datatype Input = Input(base: string, path: string)

  /** The names the legacy inputs and the specially handled folders write. */
  const LegacyShell := "ibmdotcom-web-components-dotcom-shell"
  const CloudMasthead := "cloud-masthead"
  const DotcomShell := "dotcom-shell"
  const Cta := "cta"
  const VideoCtaContainer := "video-cta-container"
  const LightboxMediaViewer := "lightbox-media-viewer"
  const LightboxImageViewer := "lightbox-image-viewer"
  const LightboxVideoPlayer := "lightbox-video-player"
  const CalloutWithMedia := "callout-with-media"
  const CalloutWithMediaImage := "callout-with-media-image"
  const CalloutWithMediaVideo := "callout-with-media-video"

  /** `src/components/<dir>/<file>.ts`. */
  function SourcePath(dir: string, file: string): string {
    "src/components/" + dir + "/" + file + ".ts"
  }

  function IndexPath(folder: string): string {
    SourcePath(folder, "index")
  }

  /** The two inputs kept for every build: the legacy dotcom shell and the cloud masthead. */
  function LegacyInputs(): seq<Input> {
    [Input(LegacyShell, IndexPath(DotcomShell)), Input(CloudMasthead, IndexPath("masthead/cloud"))]
  }

  /** The assignments the `forEach` callback's `if`/`else if`/`else` makes for one folder. */
  function OwnInputs(folder: string): seq<Input> {
    if folder == Cta then
      [Input(Cta, SourcePath(Cta, Cta)), Input(VideoCtaContainer, SourcePath(Cta, VideoCtaContainer))]
    else if folder == LightboxMediaViewer then
      [Input(LightboxImageViewer, SourcePath(LightboxMediaViewer, LightboxImageViewer)),
       Input(LightboxMediaViewer, SourcePath(LightboxMediaViewer, LightboxMediaViewer)),
       Input(LightboxVideoPlayer, SourcePath(LightboxMediaViewer, "lightbox-video-player-container"))]
    else
      [Input(folder, IndexPath(folder))]
  }

  /** The extra assignments for `callout-with-media`. */
  function ExtraInputs(folder: string): seq<Input> {
    if folder == CalloutWithMedia then
      [Input(CalloutWithMediaImage, SourcePath(CalloutWithMedia, CalloutWithMediaImage)),
       Input(CalloutWithMediaVideo, SourcePath(CalloutWithMedia, CalloutWithMediaVideo))]
    else []
  }

  /** The assignments the `forEach` callback makes for one folder, in order. */
  function FolderInputs(folder: string): seq<Input> {
    OwnInputs(folder) + ExtraInputs(folder)
  }

  /** The assignments for a list of folders, folder after folder. */
  function FoldersInputs(folders: seq<string>): seq<Input>
    decreases |folders|
  {
    if |folders| == 0 then [] else FoldersInputs(folders[..|folders| - 1]) + FolderInputs(folders[|folders| - 1])
  }

  /** Every assignment `getRollupConfig` makes to `inputs`, in program order. */
  function AllInputs(folders: seq<string>): seq<Input> {
    LegacyInputs() + FoldersInputs(folders)
  }

  /** The dictionary after performing `inputs` in order on `m`; a later assignment
      to the same name overwrites an earlier one. */
  function Assign(m: map<string, string>, inputs: seq<Input>, sfx: string): map<string, string>
    decreases |inputs|
  {
    if |inputs| == 0 then m
    else
      var last := inputs[|inputs| - 1];
      Assign(m, inputs[..|inputs| - 1], sfx)[last.base + sfx := last.path]
  }

  /** The `input` field of the configuration. */
  function Inputs(mode: string, dir: string, folders: seq<string>): map<string, string> {
    Assign(map[], AllInputs(folders), Suffix(mode, dir))
  }

  lemma {:induction false} AssignAppend(m: map<string, string>, a: seq<Input>, b: seq<Input>, sfx: string)
    ensures Assign(m, a + b, sfx) == Assign(Assign(m, a, sfx), b, sfx)
    decreases |b|
  {
    if |b| == 0 {
      assert a + b == a;
    } else {
      assert (a + b)[..|a + b| - 1] == a + b[..|b| - 1];
      AssignAppend(m, a, b[..|b| - 1], sfx);
    }
  }

  lemma AssignSnoc(m: map<string, string>, inputs: seq<Input>, e: Input, sfx: string)
    ensures Assign(m, inputs + [e], sfx) == Assign(m, inputs, sfx)[e.base + sfx := e.path]
  {
    assert (inputs + [e])[..|inputs|] == inputs;
  }

  /** A name is in the map exactly when it was there before or some assignment wrote it. */
  lemma {:induction false} AssignKeys(m: map<string, string>, inputs: seq<Input>, sfx: string, name: string)
    ensures name in Assign(m, inputs, sfx) <==>
            name in m || exists i :: 0 <= i < |inputs| && inputs[i].base + sfx == name
    decreases |inputs|
  {
    if |inputs| > 0 {
      var init := inputs[..|inputs| - 1];
      AssignKeys(m, init, sfx, name);
      assert forall i :: 0 <= i < |init| ==> init[i] == inputs[i];
    }
  }

  /** Starting from an empty dictionary, the names are exactly those written. */
  lemma {:induction false} AssignKeySet(inputs: seq<Input>, sfx: string)
    ensures Assign(map[], inputs, sfx).Keys == set e | e in inputs :: e.base + sfx
    decreases |inputs|
  {
    if |inputs| > 0 {
      var init := inputs[..|inputs| - 1];
      var last := inputs[|inputs| - 1];
      AssignKeySet(init, sfx);
      assert inputs == init + [last];
      assert (set e | e in inputs :: e.base + sfx) == (set e | e in init :: e.base + sfx) + {last.base + sfx};
    }
  }

  /** Every value in the map was there before or was written by some assignment. */
  lemma {:induction false} AssignValues(m: map<string, string>, inputs: seq<Input>, sfx: string, name: string)
    requires name in Assign(m, inputs, sfx)
    ensures Assign(m, inputs, sfx)[name] in m.Values || exists i :: 0 <= i < |inputs| && inputs[i].path == Assign(m, inputs, sfx)[name]
    decreases |inputs|
  {
    if |inputs| > 0 {
      var init := inputs[..|inputs| - 1];
      var last := inputs[|inputs| - 1];
      if name != last.base + sfx {
        AssignValues(m, init, sfx, name);
        assert forall i :: 0 <= i < |init| ==> init[i] == inputs[i];
      }
    } else {
      assert m[name] in m.Values;
    }
  }

  /** Last writer wins: the value under a name is the path of the last assignment to it. */
  lemma {:induction false} AssignLastWriter(m: map<string, string>, inputs: seq<Input>, sfx: string, i: int)
    requires 0 <= i < |inputs|
    requires forall j :: i < j < |inputs| ==> inputs[j].base != inputs[i].base
    ensures inputs[i].base + sfx in Assign(m, inputs, sfx)
    ensures Assign(m, inputs, sfx)[inputs[i].base + sfx] == inputs[i].path
    decreases |inputs|
  {
    if i < |inputs| - 1 {
      var init := inputs[..|inputs| - 1];
      assert init[i] == inputs[i];
      AssignLastWriter(m, init, sfx, i);
      var last := inputs[|inputs| - 1];
      SuffixCancel(last.base, inputs[i].base, sfx);
    }
  }

  lemma SuffixCancel(a: string, b: string, sfx: string)
    ensures a + sfx == b + sfx <==> a == b
  {
    if a + sfx == b + sfx {
      assert |a| == |b|;
      assert forall k :: 0 <= k < |a| ==> a[k] == (a + sfx)[k] == (b + sfx)[k] == b[k];
    }
  }

  lemma IndexPathInjective(a: string, b: string)
    ensures IndexPath(a) == IndexPath(b) <==> a == b
  {
    var p, q := "src/components/", "/" + "index" + ".ts";
    assert IndexPath(a) == p + (a + q) && IndexPath(b) == p + (b + q);
    assert (p + (a + q))[|p|..] == a + q;
    assert (p + (b + q))[|p|..] == b + q;
    SuffixCancel(a, b, q);
  }

  /** The bases one folder writes: its own name, or one of the fixed names of the
      special folders. */
  lemma FolderBases(folder: string, e: Input)
    requires e in FolderInputs(folder)
    ensures e.base == folder || |e.base| in {3, 19, 21, 24}
  {
  }

  /** No folder writes the `index.ts` path of `cta` or of `lightbox-media-viewer`. */
  lemma FolderPaths(folder: string, e: Input)
    requires e in FolderInputs(folder)
    ensures e.path != IndexPath(Cta) && e.path != IndexPath(LightboxMediaViewer)
  {
    IndexPathInjective(folder, Cta);
    IndexPathInjective(folder, LightboxMediaViewer);
    if e.path != IndexPath(folder) {
      assert |e.path| in {25, 41, 61, 71} by {
        assert forall d, f :: |SourcePath(d, f)| == 19 + |d| + |f|;
      }
      assert |IndexPath(Cta)| == 27 && |IndexPath(LightboxMediaViewer)| == 45;
    }
  }

  lemma {:induction false} FoldersInputsMembers(folders: seq<string>, e: Input)
    ensures e in FoldersInputs(folders) <==> exists k :: 0 <= k < |folders| && e in FolderInputs(folders[k])
    decreases |folders|
  {
    if |folders| > 0 {
      var init := folders[..|folders| - 1];
      FoldersInputsMembers(init, e);
      assert forall k :: 0 <= k < |init| ==> init[k] == folders[k];
    }
  }

  /** The legacy shell and the cloud masthead are always inputs; each keeps its fixed
      path unless a folder of the same name overwrites it. */
  lemma LegacyInputsPresent(mode: string, dir: string, folders: seq<string>)
    ensures var inputs := Inputs(mode, dir, folders); var sfx := Suffix(mode, dir);
            && LegacyShell + sfx in inputs
            && CloudMasthead + sfx in inputs
            && (LegacyShell !in folders ==> inputs[LegacyShell + sfx] == IndexPath(DotcomShell))
            && (CloudMasthead !in folders ==> inputs[CloudMasthead + sfx] == IndexPath("masthead/cloud"))
  {
    var all := AllInputs(folders);
    var sfx := Suffix(mode, dir);
    AssignKeys(map[], all, sfx, LegacyShell + sfx);
    AssignKeys(map[], all, sfx, CloudMasthead + sfx);
    assert |LegacyShell| == 37 && |CloudMasthead| == 14;
    assert all[0] == Input(LegacyShell, IndexPath(DotcomShell));
    assert all[1] == Input(CloudMasthead, IndexPath("masthead/cloud"));
    forall j | 2 <= j < |all|
      ensures all[j].base == LegacyShell ==> LegacyShell in folders
      ensures all[j].base == CloudMasthead ==> CloudMasthead in folders
    {
      var e := all[j];
      assert e == FoldersInputs(folders)[j - 2];
      FoldersInputsMembers(folders, e);
      var k :| 0 <= k < |folders| && e in FolderInputs(folders[k]);
      FolderBases(folders[k], e);
    }
    if LegacyShell !in folders {
      AssignLastWriter(map[], all, sfx, 0);
    }
    if CloudMasthead !in folders {
      AssignLastWriter(map[], all, sfx, 1);
    }
  }

  /** Every name a listed folder writes is an input. */
  lemma FolderInputsPresent(mode: string, dir: string, folders: seq<string>, k: int, e: Input)
    requires 0 <= k < |folders| && e in FolderInputs(folders[k])
    ensures e.base + Suffix(mode, dir) in Inputs(mode, dir, folders)
  {
    var all := AllInputs(folders);
    FoldersInputsMembers(folders, e);
    var i :| 0 <= i < |FoldersInputs(folders)| && FoldersInputs(folders)[i] == e;
    assert all[i + 2] == e;
    AssignKeys(map[], all, Suffix(mode, dir), e.base + Suffix(mode, dir));
  }

  /** `cta` and `lightbox-media-viewer` never contribute an `index.ts` input. */
  lemma NoIndexForSpecialFolders(mode: string, dir: string, folders: seq<string>, name: string)
    requires name in Inputs(mode, dir, folders)
    ensures Inputs(mode, dir, folders)[name] != IndexPath(Cta)
    ensures Inputs(mode, dir, folders)[name] != IndexPath(LightboxMediaViewer)
  {
    var all := AllInputs(folders);
    var v := Inputs(mode, dir, folders)[name];
    AssignValues(map[], all, Suffix(mode, dir), name);
    var i :| 0 <= i < |all| && all[i].path == v;
    if i >= 2 {
      var e := all[i];
      assert e == FoldersInputs(folders)[i - 2];
      FoldersInputsMembers(folders, e);
      var k :| 0 <= k < |folders| && e in FolderInputs(folders[k]);
      FolderPaths(folders[k], e);
    } else {
      IndexPathInjective(DotcomShell, Cta);
      IndexPathInjective(DotcomShell, LightboxMediaViewer);
      IndexPathInjective("masthead/cloud", Cta);
      IndexPathInjective("masthead/cloud", LightboxMediaViewer);
    }
  }

  /** The last listed folder, when it is neither `cta` nor `lightbox-media-viewer`,
      maps its own name to its `index.ts`: no later assignment overwrites it. */
  lemma LastFolderIndex(mode: string, dir: string, folders: seq<string>)
    requires |folders| > 0
    requires folders[|folders| - 1] != Cta && folders[|folders| - 1] != LightboxMediaViewer
    ensures var f := folders[|folders| - 1]; var sfx := Suffix(mode, dir);
            && f + sfx in Inputs(mode, dir, folders)
            && Inputs(mode, dir, folders)[f + sfx] == IndexPath(f)
  {
    var f := folders[|folders| - 1];
    var sfx := Suffix(mode, dir);
    var before := LegacyInputs() + FoldersInputs(folders[..|folders| - 1]);
    var own := FolderInputs(f);
    var all := AllInputs(folders);
    assert all == before + own;
    assert own[0] == Input(f, IndexPath(f));
    var i := |before|;
    assert all[i] == own[0];
    forall j | i < j < |all| ensures all[j].base != f {
      assert f == CalloutWithMedia && all[j] == own[j - i];
      assert |all[j].base| == 24 && |f| == 18;
    }
    AssignLastWriter(map[], all, sfx, i);
  }

  /** Any listed folder other than `cta` and `lightbox-media-viewer` maps its own name
      to its `index.ts`, unless a later folder writes that name with another path (as
      `lightbox-media-viewer` does for `lightbox-image-viewer`). */
  lemma {:induction false} FolderIndex(mode: string, dir: string, folders: seq<string>, k: int)
    requires 0 <= k < |folders|
    requires folders[k] != Cta && folders[k] != LightboxMediaViewer
    requires forall j :: k < j < |folders| ==> KeepsIndex(folders[j], folders[k])
    ensures var f := folders[k]; var sfx := Suffix(mode, dir);
            && f + sfx in Inputs(mode, dir, folders)
            && Inputs(mode, dir, folders)[f + sfx] == IndexPath(f)
    decreases |folders|
  {
    if k == |folders| - 1 {
      LastFolderIndex(mode, dir, folders);
    } else {
      var n := |folders| - 1;
      var init := folders[..n];
      assert init[k] == folders[k];
      assert forall j :: k < j < n ==> init[j] == folders[j];
      FolderIndex(mode, dir, init, k);
      SplitLast(folders);
      FolderIndexKept(mode, dir, init, folders[n], folders[k]);
    }
  }

  /** `folder` writes the name `f`, if at all, with the path of `f`'s `index.ts`. */
  predicate KeepsIndex(folder: string, f: string) {
    forall e :: e in FolderInputs(folder) && e.base == f ==> e.path == IndexPath(f)
  }

  /** A name one more folder writes, if at all, with the path it already has keeps it. */
  lemma FolderIndexKept(mode: string, dir: string, init: seq<string>, last: string, f: string)
    requires f + Suffix(mode, dir) in Inputs(mode, dir, init)
    requires Inputs(mode, dir, init)[f + Suffix(mode, dir)] == IndexPath(f)
    requires KeepsIndex(last, f)
    ensures f + Suffix(mode, dir) in Inputs(mode, dir, init + [last])
    ensures Inputs(mode, dir, init + [last])[f + Suffix(mode, dir)] == IndexPath(f)
  {
    AllInputsSnoc(init, last);
    AssignKeepsValue(map[], AllInputs(init), FolderInputs(last), Suffix(mode, dir), f);
  }

  lemma SplitLast<T>(s: seq<T>)
    requires |s| > 0
    ensures s == s[..|s| - 1] + [s[|s| - 1]]
  {
  }

  lemma AllInputsSnoc(init: seq<string>, last: string)
    ensures AllInputs(init + [last]) == AllInputs(init) + FolderInputs(last)
  {
    var folders := init + [last];
    assert folders[..|folders| - 1] == init;
  }

  /** Assignments after `done` that write `base` only with the value it already holds
      leave it. */
  lemma AssignKeepsValue(m: map<string, string>, done: seq<Input>, inputs: seq<Input>, sfx: string, base: string)
    requires base + sfx in Assign(m, done, sfx)
    requires forall e :: e in inputs && e.base == base ==> e.path == Assign(m, done, sfx)[base + sfx]
    ensures base + sfx in Assign(m, done + inputs, sfx)
    ensures Assign(m, done + inputs, sfx)[base + sfx] == Assign(m, done, sfx)[base + sfx]
  {
    AssignAppend(m, done, inputs, sfx);
    AssignUnchanged(Assign(m, done, sfx), inputs, sfx, base);
  }

  /** Assignments that write `base` only with the value it already holds leave it. */
  lemma {:induction false} AssignUnchanged(m: map<string, string>, inputs: seq<Input>, sfx: string, base: string)
    requires base + sfx in m
    requires forall e :: e in inputs && e.base == base ==> e.path == m[base + sfx]
    ensures base + sfx in Assign(m, inputs, sfx) && Assign(m, inputs, sfx)[base + sfx] == m[base + sfx]
    decreases |inputs|
  {
    if |inputs| > 0 {
      var init, last := inputs[..|inputs| - 1], inputs[|inputs| - 1];
      assert forall e :: e in init ==> e in inputs;
      AssignUnchanged(m, init, sfx, base);
      SuffixCancel(last.base, base, sfx);
    }
  }

  lemma SingleFolder(folder: string)
    ensures AllInputs([folder]) == LegacyInputs() + FolderInputs(folder)
  {
    var folders := [folder];
    assert folders[..|folders| - 1] == [] && folders[|folders| - 1] == folder;
    assert FoldersInputs(folders) == FoldersInputs([]) + FolderInputs(folder);
  }

  /** The names a build of one folder writes: the legacy names and the folder's own. */
  lemma SingleFolderKeys(mode: string, dir: string, folder: string)
    ensures Inputs(mode, dir, [folder]).Keys ==
            (set e | e in LegacyInputs() + FolderInputs(folder) :: e.base + Suffix(mode, dir))
  {
    SingleFolder(folder);
    AssignKeySet(AllInputs([folder]), Suffix(mode, dir));
  }

  lemma AssignThree(a: Input, b: Input, c: Input, sfx: string)
    ensures Assign(map[], [a, b, c], sfx) == map[a.base + sfx := a.path, b.base + sfx := b.path, c.base + sfx := c.path]
  {
    AssignSnoc(map[], [], a, sfx);
    AssignSnoc(map[], [a], b, sfx);
    AssignSnoc(map[], [a, b], c, sfx);
    assert [] + [a] == [a] && [a] + [b] == [a, b] && [a, b] + [c] == [a, b, c];
  }

  /** The default call (development, left to right, `dotcom-shell` only) yields exactly
      three unsuffixed names: the legacy shell, the cloud masthead and `dotcom-shell`. */
  lemma DefaultInputs(mode: string, dir: string, folders: seq<string>)
    requires mode == "development" && dir == "ltr" && folders == [DotcomShell]
    ensures Inputs(mode, dir, folders) ==
            map[LegacyShell := IndexPath(DotcomShell),
                CloudMasthead := IndexPath("masthead/cloud"),
                DotcomShell := IndexPath(DotcomShell)]
    ensures |Inputs(mode, dir, folders).Keys| == 3
  {
    var l := LegacyInputs();
    var d := Input(DotcomShell, IndexPath(DotcomShell));
    SingleFolder(DotcomShell);
    assert |DotcomShell| == 12;
    assert FolderInputs(DotcomShell) == [d];
    assert AllInputs(folders) == [l[0], l[1], d];
    AssignThree(l[0], l[1], d, "");
    assert Suffix(mode, dir) == "";
    assert l[0].base + "" == l[0].base && l[1].base + "" == l[1].base && d.base + "" == d.base;
    ThreeKeys(l[0].base, l[1].base, d.base, l[0].path, l[1].path, d.path);
  }

  lemma ThreeKeys(a: string, b: string, c: string, va: string, vb: string, vc: string)
    requires |a| == 37 && |b| == 14 && |c| == 12
    ensures |map[a := va, b := vb, c := vc].Keys| == 3
  {
    assert map[a := va, b := vb, c := vc].Keys == {a, b, c};
  }

  lemma NamesOfFour(all: seq<Input>, sfx: string)
    requires |all| == 4
    ensures (set e | e in all :: e.base + sfx) == {all[0].base + sfx, all[1].base + sfx, all[2].base + sfx, all[3].base + sfx}
  {
    assert forall e :: e in all <==> e == all[0] || e == all[1] || e == all[2] || e == all[3];
  }

  lemma NamesOfFive(all: seq<Input>, sfx: string)
    requires |all| == 5
    ensures (set e | e in all :: e.base + sfx)
            == {all[0].base + sfx, all[1].base + sfx, all[2].base + sfx, all[3].base + sfx, all[4].base + sfx}
  {
    assert forall e :: e in all <==> e == all[0] || e == all[1] || e == all[2] || e == all[3] || e == all[4];
  }

  /** With `cta` alone, its two entries are added and nothing else; no `index.ts`
      entry is written for it. */
  lemma CtaInputs(mode: string, dir: string)
    ensures var sfx := Suffix(mode, dir);
            Inputs(mode, dir, [Cta]).Keys == {LegacyShell + sfx, CloudMasthead + sfx, Cta + sfx, VideoCtaContainer + sfx}
  {
    var sfx := Suffix(mode, dir);
    SingleFolderKeys(mode, dir, Cta);
    var all := LegacyInputs() + FolderInputs(Cta);
    NamesOfFour(all, sfx);
  }

  /** With `lightbox-media-viewer` alone, exactly its three viewer and player entries
      are added. */
  lemma LightboxInputs(mode: string, dir: string)
    ensures var sfx := Suffix(mode, dir);
            Inputs(mode, dir, [LightboxMediaViewer]).Keys ==
              {LegacyShell + sfx, CloudMasthead + sfx,
               LightboxImageViewer + sfx, LightboxMediaViewer + sfx, LightboxVideoPlayer + sfx}
  {
    var sfx := Suffix(mode, dir);
    SingleFolderKeys(mode, dir, LightboxMediaViewer);
    var all := LegacyInputs() + FolderInputs(LightboxMediaViewer);
    NamesOfFive(all, sfx);
  }

  /** `callout-with-media` gets its `index.ts` entry and also the image and video ones. */
  lemma CalloutInputs(mode: string, dir: string)
    ensures var sfx := Suffix(mode, dir); var inputs := Inputs(mode, dir, [CalloutWithMedia]);
            && inputs.Keys ==
               {LegacyShell + sfx, CloudMasthead + sfx,
                CalloutWithMedia + sfx, CalloutWithMediaImage + sfx, CalloutWithMediaVideo + sfx}
            && inputs[CalloutWithMedia + sfx] == IndexPath(CalloutWithMedia)
  {
    var sfx := Suffix(mode, dir);
    SingleFolderKeys(mode, dir, CalloutWithMedia);
    var all := LegacyInputs() + FolderInputs(CalloutWithMedia);
    NamesOfFive(all, sfx);
    SingleFolder(CalloutWithMedia);
    assert all[2] == Input(CalloutWithMedia, IndexPath(CalloutWithMedia));
    assert |CalloutWithMedia| == 18 && |all[3].base| == 24 && |all[4].base| == 24;
    AssignLastWriter(map[], all, sfx, 2);
  }

  lemma FoldersInputsPrefix(folders: seq<string>, i: int)
    requires 0 <= i < |folders|
    ensures LegacyInputs() + FoldersInputs(folders[..i + 1])
            == LegacyInputs() + FoldersInputs(folders[..i]) + FolderInputs(folders[i])
  {
    assert folders[..i + 1][..i] == folders[..i];
    assert folders[..i + 1][i] == folders[i];
  }

  /** The PostCSS plugins. */
  datatype CssPlugin = FixHostPseudo | Autoprefixer | Cssnano | Rtlcss

  /** The Rollup plugins, in the roles they play. */
  datatype Plugin =
    | MultiInput | NodeResolve | Json | CommonJs | MinifyHtmlLiterals | IbmdotcomIcon
    | InjectProcessEnv | BabelTypeScript | BabelUndefCustomElements
    | LitScss(postCss: seq<CssPlugin>)
    | Replace(nodeEnv: string)
    | Terser
    | License

  /** The PostCSS plugin list as a value. */
  function CssPlugins(mode: string, dir: string): seq<CssPlugin> {
    [FixHostPseudo, Autoprefixer]
    + (if mode != "development" then [Cssnano] else [])
    + (if dir == "rtl" then [Rtlcss] else [])
  }

  /** Host-pseudo fixing and autoprefixing always run first; cssnano runs exactly
      outside development and rtlcss exactly for right-to-left, after cssnano; no
      plugin runs twice. */
  lemma CssPluginsOrder(mode: string, dir: string)
    ensures var p := CssPlugins(mode, dir);
            && |p| >= 2 && p[0] == FixHostPseudo && p[1] == Autoprefixer
            && (Cssnano in p <==> mode != "development")
            && (Rtlcss in p <==> dir == "rtl")
            && (Rtlcss in p ==> p[|p| - 1] == Rtlcss)
            && (forall i, j :: 0 <= i < j < |p| ==> p[i] != p[j])
  {
  }

  /** The last plugins: `license` alone in development, `terser` then `license` otherwise. */
  function OutputTail(mode: string): seq<Plugin> {
    if mode == "development" then [License] else [Terser, License]
  }

  /** The `plugins` field of the configuration. */
  function Plugins(mode: string, dir: string): seq<Plugin> {
    [MultiInput, NodeResolve, Json, CommonJs, MinifyHtmlLiterals, IbmdotcomIcon, InjectProcessEnv,
     BabelTypeScript, BabelUndefCustomElements, LitScss(CssPlugins(mode, dir)), Replace(JsonQuote(mode))]
    + OutputTail(mode)
  }

  /** `license` is always last and appears once; `terser` is present exactly outside
      development; the SCSS plugin carries the PostCSS list and `NODE_ENV` is replaced
      by a JSON string that reads back as the mode. */
  lemma PluginsShape(mode: string, dir: string)
    ensures var p := Plugins(mode, dir);
            && p[|p| - 1] == License
            && (forall i :: 0 <= i < |p| - 1 ==> p[i] != License)
            && (Terser in p <==> mode != "development")
            && LitScss(CssPlugins(mode, dir)) in p
            && exists i :: 0 <= i < |p| && p[i].Replace? && ParseJsonString(p[i].nodeEnv) == Some(mode)
  {
    var p := Plugins(mode, dir);
    JsonRoundTrip(mode);
    assert p[10] == Replace(JsonQuote(mode));
  }

  /** `JSON.stringify` of a string: quoted, with `"` and `\` escaped, the usual
      two-character escapes for backspace, form feed, newline, carriage return and
      tab, and `\u00XX` in lower-case hexadecimal for the other control characters. */
  function JsonQuote(s: string): string {
    "\"" + EscapeAll(s) + "\""
  }

  function EscapeAll(s: string): string
    decreases |s|
  {
    if |s| == 0 then "" else Escape(s[0]) + EscapeAll(s[1..])
  }

  function HexDigit(d: int): char
    requires 0 <= d < 16
  {
    if d < 10 then ('0' as int + d) as char else ('a' as int + d - 10) as char
  }

  predicate IsHexDigit(c: char) {
    '0' <= c <= '9' || 'a' <= c <= 'f' || 'A' <= c <= 'F'
  }

  function HexValue(c: char): (v: int)
    requires IsHexDigit(c)
    ensures 0 <= v < 16
  {
    if '0' <= c <= '9' then c as int - '0' as int
    else if 'a' <= c <= 'f' then c as int - 'a' as int + 10
    else c as int - 'A' as int + 10
  }

  function Escape(c: char): string {
    if c == '"' then "\\\""
    else if c == '\\' then "\\\\"
    else if c == 8 as char then "\\b"
    else if c == 12 as char then "\\f"
    else if c == '\n' then "\\n"
    else if c == '\r' then "\\r"
    else if c == '\t' then "\\t"
    else if (c as int) < 0x20 then "\\u00" + [HexDigit((c as int) / 16), HexDigit((c as int) % 16)]
    else [c]
  }

  /** The character a two-character escape `\x` stands for, in JSON's grammar. */
  function SimpleUnescape(x: char): Option<char> {
    if x == '"' then Some('"')
    else if x == '\\' then Some('\\')
    else if x == '/' then Some('/')
    else if x == 'b' then Some(8 as char)
    else if x == 'f' then Some(12 as char)
    else if x == 'n' then Some('\n')
    else if x == 'r' then Some('\r')
    else if x == 't' then Some('\t')
    else None
  }

  function Prepend(c: char, rest: Option<string>): Option<string> {
    match rest
    case None => None
    case Some(t) => Some([c] + t)
  }

  /** The characters of a JSON string body, or `None` when the body is not valid JSON
      (a bare quote or control character, or a bad escape). Surrogate-pair escapes
      are not read. */
  function Unescape(s: string): Option<string>
    decreases |s|
  {
    if |s| == 0 then Some("")
    else if s[0] == '\\' then
      if |s| < 2 then None
      else if SimpleUnescape(s[1]).Some? then Prepend(SimpleUnescape(s[1]).value, Unescape(s[2..]))
      else if |s| >= 6 && s[1] == 'u' && IsHexDigit(s[2]) && IsHexDigit(s[3]) && IsHexDigit(s[4]) && IsHexDigit(s[5]) then
        var v := 4096 * HexValue(s[2]) + 256 * HexValue(s[3]) + 16 * HexValue(s[4]) + HexValue(s[5]);
        if 0xD800 <= v < 0xE000 then None else Prepend(v as char, Unescape(s[6..]))
      else None
    else if s[0] == '"' || (s[0] as int) < 0x20 then None
    else Prepend(s[0], Unescape(s[1..]))
  }

  /** `JSON.parse` of a string literal. */
  function ParseJsonString(q: string): Option<string> {
    if |q| >= 2 && q[0] == '"' && q[|q| - 1] == '"' then Unescape(q[1..|q| - 1]) else None
  }

  lemma EscapeThenUnescape(c: char, rest: string)
    ensures Unescape(Escape(c) + rest) == Prepend(c, Unescape(rest))
  {
    var e := Escape(c);
    if (c as int) < 0x20 && c != 8 as char && c != 12 as char && c != '\n' && c != '\r' && c != '\t' {
      var n := c as int;
      var hi, lo := n / 16, n % 16;
      assert e == ['\\', 'u', '0', '0', HexDigit(hi), HexDigit(lo)];
      assert HexValue(HexDigit(hi)) == hi && HexValue(HexDigit(lo)) == lo;
      assert (e + rest)[6..] == rest;
      assert 16 * hi + lo == n;
    } else if |e| == 2 {
      assert (e + rest)[2..] == rest;
    } else {
      assert (e + rest)[1..] == rest;
    }
  }

  /** Reading back what `JSON.stringify` wrote gives the original string. */
  lemma {:induction false} UnescapeEscapeAll(s: string)
    ensures Unescape(EscapeAll(s)) == Some(s)
    decreases |s|
  {
    if |s| == 0 {
    } else {
      EscapeThenUnescape(s[0], EscapeAll(s[1..]));
      UnescapeEscapeAll(s[1..]);
      assert [s[0]] + s[1..] == s;
    }
  }

  lemma JsonRoundTrip(s: string)
    ensures ParseJsonString(JsonQuote(s)) == Some(s)
  {
    var q := JsonQuote(s);
    assert q[1..|q| - 1] == EscapeAll(s);
    UnescapeEscapeAll(s);
  }

  /** A string with no quote, backslash or control character is written between
      quotes as it is; the two known modes are among them. */
  lemma {:induction false} JsonQuotePlain(s: string)
    requires forall k :: 0 <= k < |s| ==> s[k] != '"' && s[k] != '\\' && (s[k] as int) >= 0x20
    ensures JsonQuote(s) == "\"" + s + "\""
    decreases |s|
  {
    EscapeAllPlain(s);
  }

  lemma {:induction false} EscapeAllPlain(s: string)
    requires forall k :: 0 <= k < |s| ==> s[k] != '"' && s[k] != '\\' && (s[k] as int) >= 0x20
    ensures EscapeAll(s) == s
    decreases |s|
  {
    if |s| > 0 {
      EscapeAllPlain(s[1..]);
      assert [s[0]] + s[1..] == s;
    }
  }

  /** The options object; `None` stands for a property that is `undefined`. */
  datatype Options = Options(mode: Option<string>, dir: Option<string>, folders: Option<seq<string>>)

  function ModeOf(options: Options): string {
    if options.mode.Some? then options.mode.value else "development"
  }

  function DirOf(options: Options): string {
    if options.dir.Some? then options.dir.value else "ltr"
  }

  function FoldersOf(options: Options): seq<string> {
    if options.folders.Some? then options.folders.value else [DotcomShell]
  }

  datatype Config = Config(input: map<string, string>, plugins: seq<Plugin>)

  /** Calling with no options is a development, left-to-right build of `dotcom-shell`:
      three unsuffixed inputs, no cssnano, rtlcss or terser. */
  lemma DefaultConfig(o: Options)
    requires o == Options(None, None, None)
    ensures ModeOf(o) == "development" && DirOf(o) == "ltr" && FoldersOf(o) == [DotcomShell]
    ensures |Inputs(ModeOf(o), DirOf(o), FoldersOf(o)).Keys| == 3
    ensures CssPlugins(ModeOf(o), DirOf(o)) == [FixHostPseudo, Autoprefixer]
    ensures OutputTail(ModeOf(o)) == [License]
  {
    DefaultInputs(ModeOf(o), DirOf(o), FoldersOf(o));
  }

  /** The PostCSS list, built by pushing onto the two fixed plugins. */
  method PostCssPlugins(mode: string, dir: string) returns (plugins: seq<CssPlugin>)
    ensures plugins == CssPlugins(mode, dir)
  {
    plugins := [FixHostPseudo, Autoprefixer];
    if mode != "development" {
      plugins := plugins + [Cssnano];
    }
    if dir == "rtl" {
      plugins := plugins + [Rtlcss];
    }
  }

  /** The `forEach` callback: the assignments for one folder. */
  method AddFolderInputs(inputs: map<string, string>, folder: string, sfx: string) returns (r: map<string, string>)
    ensures r == Assign(inputs, FolderInputs(folder), sfx)
  {
    var own := AddOwnInputs(inputs, folder, sfx);
    r := AddExtraInputs(own, folder, sfx);
    AssignAppend(inputs, OwnInputs(folder), ExtraInputs(folder), sfx);
  }

  /** The callback's `if`/`else if`/`else`. */
  method AddOwnInputs(inputs: map<string, string>, folder: string, sfx: string) returns (r: map<string, string>)
    ensures r == Assign(inputs, OwnInputs(folder), sfx)
  {
    if folder == Cta {
      var a := Input(Cta, SourcePath(Cta, Cta));
      var b := Input(VideoCtaContainer, SourcePath(Cta, VideoCtaContainer));
      r := inputs[a.base + sfx := a.path];
      r := r[b.base + sfx := b.path];
      AssignPair(inputs, a, b, sfx);
    } else if folder == LightboxMediaViewer {
      var a := Input(LightboxImageViewer, SourcePath(LightboxMediaViewer, LightboxImageViewer));
      var b := Input(LightboxMediaViewer, SourcePath(LightboxMediaViewer, LightboxMediaViewer));
      var c := Input(LightboxVideoPlayer, SourcePath(LightboxMediaViewer, "lightbox-video-player-container"));
      r := inputs[a.base + sfx := a.path];
      r := r[b.base + sfx := b.path];
      r := r[c.base + sfx := c.path];
      AssignTriple(inputs, a, b, c, sfx);
    } else {
      var a := Input(folder, IndexPath(folder));
      r := inputs[a.base + sfx := a.path];
      AssignSnoc(inputs, [], a, sfx);
      assert [] + [a] == [a];
    }
  }

  /** The callback's second `if`, for `callout-with-media`. */
  method AddExtraInputs(inputs: map<string, string>, folder: string, sfx: string) returns (r: map<string, string>)
    ensures r == Assign(inputs, ExtraInputs(folder), sfx)
  {
    r := inputs;
    if folder == CalloutWithMedia {
      var a := Input(CalloutWithMediaImage, SourcePath(CalloutWithMedia, CalloutWithMediaImage));
      var b := Input(CalloutWithMediaVideo, SourcePath(CalloutWithMedia, CalloutWithMediaVideo));
      r := r[a.base + sfx := a.path];
      r := r[b.base + sfx := b.path];
      AssignPair(inputs, a, b, sfx);
    }
  }

  lemma AssignPair(m: map<string, string>, a: Input, b: Input, sfx: string)
    ensures Assign(m, [a, b], sfx) == m[a.base + sfx := a.path][b.base + sfx := b.path]
  {
    AssignSnoc(m, [], a, sfx);
    AssignSnoc(m, [a], b, sfx);
    assert [] + [a] == [a] && [a] + [b] == [a, b];
  }

  lemma AssignTriple(m: map<string, string>, a: Input, b: Input, c: Input, sfx: string)
    ensures Assign(m, [a, b, c], sfx) == m[a.base + sfx := a.path][b.base + sfx := b.path][c.base + sfx := c.path]
  {
    AssignPair(m, a, b, sfx);
    AssignSnoc(m, [a, b], c, sfx);
    assert [a, b] + [c] == [a, b, c];
  }

  /** The `inputs` dictionary, filled in place: the legacy inputs, then each folder's. */
  method BuildInputs(mode: string, dir: string, folders: seq<string>) returns (inputs: map<string, string>)
    ensures inputs == Inputs(mode, dir, folders)
  {
    var sfx := DirSuffix(dir) + ModeSuffix(mode);
    inputs := map[];
    inputs := inputs[LegacyShell + sfx := IndexPath(DotcomShell)];
    inputs := inputs[CloudMasthead + sfx := IndexPath("masthead/cloud")];
    AssignSnoc(map[], [], LegacyInputs()[0], sfx);
    AssignSnoc(map[], [LegacyInputs()[0]], LegacyInputs()[1], sfx);
    assert [LegacyInputs()[0]] + [LegacyInputs()[1]] == LegacyInputs();
    var i := 0;
    while i < |folders|
      invariant 0 <= i <= |folders|
      invariant inputs == Assign(map[], LegacyInputs() + FoldersInputs(folders[..i]), sfx)
    {
      FoldersInputsPrefix(folders, i);
      AssignAppend(map[], LegacyInputs() + FoldersInputs(folders[..i]), FolderInputs(folders[i]), sfx);
      inputs := AddFolderInputs(inputs, folders[i], sfx);
      i := i + 1;
    }
    assert folders[..|folders|] == folders;
  }

  /** `getRollupConfig(options)`. */
  method GetRollupConfig(options: Options) returns (config: Config)
    ensures config.input == Inputs(ModeOf(options), DirOf(options), FoldersOf(options))
    ensures config.plugins == Plugins(ModeOf(options), DirOf(options))
  {
    var mode := if options.mode.Some? then options.mode.value else "development";
    var dir := if options.dir.Some? then options.dir.value else "ltr";
    var folders := if options.folders.Some? then options.folders.value else [DotcomShell];
    var postCssPlugins := PostCssPlugins(mode, dir);
    var inputs := BuildInputs(mode, dir, folders);
    var tail := if mode == "development" then [License] else [Terser, License];
    config := Config(inputs,
      [MultiInput, NodeResolve, Json, CommonJs, MinifyHtmlLiterals, IbmdotcomIcon, InjectProcessEnv,
       BabelTypeScript, BabelUndefCustomElements, LitScss(postCssPlugins), Replace(JsonQuote(mode))] + tail);
  }
}
