# Carbon web components: widget state rules and the Rollup input builder

This project models the small state rules of five web components, and the
function that builds the Rollup bundle configuration of Carbon for IBM.com. Three
of the components are Carbon web components (`bx-tooltip`,
`bx-header-menu-button`, `cds-chat-button`); two are Carbon for IBM.com
components (`dds-tag-group`, `c4d-megamenu-heading`):

- **`bx-tooltip`** (module `Tooltip`): the `open` flag driven by click,
  keydown and focus-out. The attribute defaults set on connection. The sync
  after an update, which copies `open` into the cached floating menu and into
  `aria-expanded`.
- **`bx-header-menu-button`** (module `HeaderMenuButton`): the click handler
  that pushes an `open` value into every `bx-side-nav` descendant. The label,
  class string and icon that `render` chooses from `active`.
- **`cds-chat-button`** (module `ChatButton`): the kind/size normalisation
  that `render` writes back into the element. The class string built by
  successive `+=`. The icon-presence predicate over slotted nodes.
- **`dds-tag-group`** (module `TagGroup`): recolouring on slot change. Carbon
  tags without a colour get `type="green"`. Carbon React tags without a
  `bx--tag--*` class get `<prefix>--tag--green`. Also the `role="list"` set on
  connection.
- **`c4d-megamenu-heading`** (module `MegaMenuHeading`): the `h2`..`h6`
  dispatch on `headingLevel`, the link/plain choice on `href`, and the
  `has-content` class toggled on slot change.
- **`getRollupConfig`** (module `RollupConfig`): the `inputs` dictionary, the
  PostCSS plugin array and the final plugin list. The dictionary is filled in
  place, folder by folder. The PostCSS array is extended with `push`. Plugins
  are opaque tokens. `JSON.stringify(mode)` is modelled together with a parser
  that reads the quoted string back.

Shared DOM behaviour lives in module `Dom`:

- a `Node` class with attributes, a class string, text and an `open` property;
- JavaScript `trim` over ECMAScript whitespace, and `split` on one character;
- the `classList` token set of the DOM standard (ordered set, `add`,
  `toggle`, serialisation back to the attribute).

Module `Wrappers` holds `Option`.

Components whose handlers assign fields are classes whose methods state the
whole new state. Most methods are proved against a specification function, and
the properties are proved as lemmas about those functions;
`HeaderMenuButton.HeaderMenuButton.HandleClick` and
`TagGroup.TagGroup.ConnectedCallback` state their new state directly. Source paths below
are relative to the repository root.

## Model

| member | source | states |
|---|---|---|
| `Dom.Trim` | packages/carbon-web-components/src/components/chat-button/chat-button.ts:38 | `String.prototype.trim`: ECMAScript whitespace and line terminators removed from both ends; what it yields is stated by `Dom.TrimNonEmpty` |
| `Dom.Split` | packages/web-components/src/components/tag-group/tag-group.ts:57-58 | `split(' ')`: always at least one piece; the pieces are given back by `Dom.SplitJoin` |
| `Dom.TokenSet` | packages/web-components/src/components/tag-group/tag-group.ts:41 | the `classList` of a class string: its ASCII-whitespace-separated tokens, first occurrences only, in order; see `Dom.TokenSetSerialize` |
| `Dom.Add` | packages/web-components/src/components/tag-group/tag-group.ts:61 | `classList.add(t)` followed by serialisation; its effect on the token set is stated by `Dom.AddContains` |
| `Dom.Toggle` | packages/web-components/src/components/masthead/megamenu-heading.ts:131 | `classList.toggle(t, force)` followed by serialisation; its effect is stated by `Dom.ToggleContains` |
| `Dom.TrimNonEmpty` | packages/carbon-web-components/src/components/chat-button/chat-button.ts:38 | `s.trim()` is non-empty exactly when `s` holds a character that is not ECMAScript whitespace or a line terminator |
| `Dom.SplitJoin` | packages/web-components/src/components/tag-group/tag-group.ts:57-59 | `split(' ')` of parts joined by a space gives the parts back, when no part holds a space |
| `Dom.TokenSetSerialize` | packages/web-components/src/components/tag-group/tag-group.ts:61 | reading `classList` back from the serialised attribute gives the same ordered token set |
| `Dom.AddContains` | packages/web-components/src/components/tag-group/tag-group.ts:61 | after `classList.add(t)` the list holds `t` and exactly the tokens it held before |
| `Dom.ToggleContains` | packages/web-components/src/components/masthead/megamenu-heading.ts:131 | after `classList.toggle(t, force)` the list holds `t` exactly when `force`; every other token is present exactly when it was before |
| `Tooltip.AfterClick` | packages/carbon-web-components/src/components/tooltip/tooltip.ts:50-57 | `open` after `_handleClick(forceState)`: no argument flips it, anything else sets it to `Boolean(forceState)`; used by `Tooltip.Tooltip.HandleClick`, which states it |
| `Tooltip.ClickCallAsWritten` | packages/carbon-web-components/src/components/tooltip/tooltip.ts:48-87 | the `_handleClick` call each host event makes as written: the click listener passes the event, Space/Enter pass nothing, Escape and focus-out pass `false`, other keys make no call; see `Tooltip.ClickAsWrittenNeverCloses` |
| `Tooltip.OpenAsWritten` | packages/carbon-web-components/src/components/tooltip/tooltip.ts:48-87 | the state machine as written; `Tooltip.ClickAsWrittenNeverCloses` and `Tooltip.RunAsWrittenWithoutClick` state how it relates to `Tooltip.Open` |
| `Tooltip.RunAsWrittenWithoutClick` | packages/carbon-web-components/src/components/tooltip/tooltip.ts:66-87 | over any sequence of key and focus events, the listeners as written and the corrected click listener give the same `open` |
| `Tooltip.Open` | packages/carbon-web-components/src/components/tooltip/tooltip.ts:48-87 | with the click listener corrected (see Findings): click, Space and Enter flip `open`; Escape and focus-out leave it false; any other key leaves it unchanged |
| `Tooltip.ClickAsWrittenNeverCloses` | packages/carbon-web-components/src/components/tooltip/tooltip.ts:48-57 | the host click listener passes the event as `forceState`, so a click always leaves `open` true; on an open tooltip this differs from the toggle |
| `Tooltip.ClosingIdempotent` | packages/carbon-web-components/src/components/tooltip/tooltip.ts:75-87 | Escape or focus-out after Escape or focus-out changes nothing |
| `Tooltip.RunOfClosing` | packages/carbon-web-components/src/components/tooltip/tooltip.ts:75-87 | any non-empty run of Escape and focus-out events leaves the tooltip closed, so running it again changes nothing |
| `Tooltip.RunAppend` | packages/carbon-web-components/src/components/tooltip/tooltip.ts:48-87 | with the corrected click listener, running two event sequences in turn equals running their concatenation |
| `Tooltip.RunWithoutClosing` | packages/carbon-web-components/src/components/tooltip/tooltip.ts:48-87 | with the corrected click listener and no closing event, the tooltip ends open exactly when its start state differs from the parity of the toggles |
| `Tooltip.RunAfterClosing` | packages/carbon-web-components/src/components/tooltip/tooltip.ts:48-87 | with the corrected click listener, after the last closing event, the tooltip is open exactly when an odd number of toggles followed it |
| `Tooltip.FindFloatingMenu` | packages/carbon-web-components/src/components/tooltip/tooltip.ts:128-133 | the result is null exactly when no child is a floating menu; otherwise it is the first child that is |
| `Tooltip.ConnectedAttributes` | packages/carbon-web-components/src/components/tooltip/tooltip.ts:106-119 | `role`, `tabindex`, `aria-haspopup` and `aria-expanded` end up present; absent ones take `button`, `0`, `true` and `false`; present attributes keep their values |
| `Tooltip.Tooltip.constructor` | packages/carbon-web-components/src/components/tooltip/tooltip.ts:35-93 | `open` starts false and no menu body is cached |
| `Tooltip.Tooltip.HandleClick` | packages/carbon-web-components/src/components/tooltip/tooltip.ts:50-57 | no argument flips `open`; a boolean sets it; an event object sets it to `Boolean(event)`, which is true |
| `Tooltip.Tooltip.HandleKeydown` | packages/carbon-web-components/src/components/tooltip/tooltip.ts:72-78 | the new `open` is `Open` of the old one and the key event |
| `Tooltip.Tooltip.HandleFocusout` | packages/carbon-web-components/src/components/tooltip/tooltip.ts:85-87 | `open` is false afterwards |
| `Tooltip.Tooltip.HandleClickEventAsWritten` | packages/carbon-web-components/src/components/tooltip/tooltip.ts:48-57 | as written, a click leaves `open` true whatever it was |
| `Tooltip.Tooltip.HandleClickEvent` | packages/carbon-web-components/src/components/tooltip/tooltip.ts:48-57 | corrected, a click flips `open`, as `Open` prescribes |
| `Tooltip.Tooltip.ConnectedCallback` | packages/carbon-web-components/src/components/tooltip/tooltip.ts:106-119 | the attributes become `ConnectedAttributes` of the old ones |
| `Tooltip.Tooltip.Updated` | packages/carbon-web-components/src/components/tooltip/tooltip.ts:126-139 | when `open` changed: a cached menu body is kept, otherwise the first floating-menu child is cached; a found body's `open` equals the tooltip's; `aria-expanded` is `"true"`/`"false"` per `open`. When `open` did not change, the cached body's `open` is kept. The cached body's attributes and class, the tooltip's `open` and the other children are never touched |
| `HeaderMenuButton.SelectorNav` | src/components/ui-shell/header-menu-button.ts:80-82 | the selector of the navs the button controls, `<prefix>-side-nav`; `HeaderMenuButton.HeaderMenuButton.HandleClick` states what happens to the nodes it matches |
| `HeaderMenuButton.Classes` | src/components/ui-shell/header-menu-button.ts:67-69 | the `classnames` string; its tokens are stated by `HeaderMenuButton.ClassesTokens` |
| `HeaderMenuButton.Render` | src/components/ui-shell/header-menu-button.ts:64-75 | the label is `buttonLabelActive` when active and `buttonLabelInactive` otherwise; the icon is Close when active and Menu otherwise; `disabled` passes through |
| `HeaderMenuButton.ClassesTokens` | src/components/ui-shell/header-menu-button.ts:67-69 | the `classnames` string splits into the three base classes, then the active class when `active` |
| `HeaderMenuButton.RenderedClassList` | src/components/ui-shell/header-menu-button.ts:67-69 | the button's class list is exactly the three base classes, followed by the active class when `active` |
| `HeaderMenuButton.ActiveClassIffActive` | src/components/ui-shell/header-menu-button.ts:64-75 | the rendered classes contain `--header__action--active` exactly when `active`, and always the three base classes |
| `HeaderMenuButton.HeaderMenuButton.constructor` | src/components/ui-shell/header-menu-button.ts:39-58 | `active` and `disabled` start false |
| `HeaderMenuButton.HeaderMenuButton.HandleClick` | src/components/ui-shell/header-menu-button.ts:27-33 | `active` is unchanged, as it is negated twice; every `<prefix>-side-nav` descendant gets `open == !active`; other descendants are unchanged |
| `ChatButton.NormalizedKind` | packages/carbon-web-components/src/components/chat-button/chat-button.ts:80-88 | quick action forces GHOST; otherwise the kind is kept |
| `ChatButton.NormalizedSize` | packages/carbon-web-components/src/components/chat-button/chat-button.ts:74-88 | the result is always an allowed size: SMALL for quick action, otherwise the size if allowed and LARGE if not |
| `ChatButton.NormalizationIdempotent` | packages/carbon-web-components/src/components/chat-button/chat-button.ts:80-88 | normalising twice gives the same kind and size as normalising once |
| `ChatButton.ClassTokens` | packages/carbon-web-components/src/components/chat-button/chat-button.ts:90-95 | the class names `render` appends, in order; `ChatButton.ClassStringTokens` states how they read back |
| `ChatButton.IsIconNode` | packages/carbon-web-components/src/components/chat-button/chat-button.ts:38 | the `some` callback: a node counts when it is not a text node or its trimmed text is non-empty; see `ChatButton.TextIconNode` |
| `ChatButton.ClassTokensWellFormed` | packages/carbon-web-components/src/components/chat-button/chat-button.ts:90-95 | the four class names are distinct valid tokens without spaces |
| `ChatButton.ClassStringTokens` | packages/carbon-web-components/src/components/chat-button/chat-button.ts:90-95 | the class string reads back as its token list; the base class is first; the with-icon, quick-action and selected classes are present exactly when their flags are |
| `ChatButton.HasIcon` | packages/carbon-web-components/src/components/chat-button/chat-button.ts:34-39 | true exactly when some slotted node is not a text node or has non-blank text |
| `ChatButton.TextIconNode` | packages/carbon-web-components/src/components/chat-button/chat-button.ts:38 | a text node counts as an icon exactly when it holds a non-whitespace character |
| `ChatButton.ChatButton.constructor` | packages/carbon-web-components/src/components/chat-button/chat-button.ts:29-71 | defaults: no icon, not disabled, PRIMARY, LARGE, not quick action, not selected |
| `ChatButton.ChatButton.HandleSlotChange` | packages/carbon-web-components/src/components/chat-button/chat-button.ts:34-41 | `_hasIcon` becomes `HasIcon` of the assigned nodes |
| `ChatButton.ChatButton.Render` | packages/carbon-web-components/src/components/chat-button/chat-button.ts:73-102 | kind and size become their normalised values; the view's class string is the serialised `ClassTokens` and carries the new size, kind and `disabled` |
| `TagGroup.SelectorTag` | packages/web-components/src/components/tag-group/tag-group.ts:85-87 | the Carbon tag selector `<prefix>-tag` |
| `TagGroup.SelectorReactTag` | packages/web-components/src/components/tag-group/tag-group.ts:92-94 | the React tag class `<prefix>--tag` |
| `TagGroup.IsCarbonTag` | packages/web-components/src/components/tag-group/tag-group.ts:34-38 | the first `filter` test: the node is an element matching `<prefix>-tag` |
| `TagGroup.IsReactTag` | packages/web-components/src/components/tag-group/tag-group.ts:40-44 | the second `filter` test: the node is an element whose class list contains `<prefix>--tag` |
| `TagGroup.CarbonColour` | packages/web-components/src/components/tag-group/tag-group.ts:47-54 | a missing or `gray` type becomes `green`; any other type and every other attribute is kept; afterwards a type is present and not `gray` |
| `TagGroup.CarbonColourIdempotent` | packages/web-components/src/components/tag-group/tag-group.ts:47-54 | recolouring a Carbon tag twice equals recolouring it once |
| `TagGroup.HasColourClass` | packages/web-components/src/components/tag-group/tag-group.ts:56-60 | some `split(' ')` piece of the class string starts with `bx--tag--`; `TagGroup.GreenIsColourClass` shows the green class is one |
| `TagGroup.ReactColour` | packages/web-components/src/components/tag-group/tag-group.ts:55-63 | one React tag's class string after recolouring; `TagGroup.ReactColourClasses` and `TagGroup.ReactColourIdempotent` state its effect |
| `TagGroup.RecolouredAttributes` | packages/web-components/src/components/tag-group/tag-group.ts:34-54 | a node's attributes after the Carbon pass: `CarbonColour` for a Carbon tag, unchanged otherwise; see `TagGroup.CarbonTagsColoured` |
| `TagGroup.RecolouredClassName` | packages/web-components/src/components/tag-group/tag-group.ts:40-63 | a node's class after the React pass: `ReactColour` for a React tag, unchanged otherwise; see `TagGroup.RecolouringKeepsReactTag` and `TagGroup.RecolouringIdempotent` |
| `TagGroup.ReactColourClasses` | packages/web-components/src/components/tag-group/tag-group.ts:55-63 | a class string with a `bx--tag--*` piece is unchanged; otherwise the class list becomes the old one plus the green class |
| `TagGroup.ReactColourIdempotent` | packages/web-components/src/components/tag-group/tag-group.ts:55-63 | recolouring a React tag twice equals recolouring it once, for every prefix |
| `TagGroup.GreenIsColourClass` | packages/web-components/src/components/tag-group/tag-group.ts:57-61 | with prefix `bx`, a recoloured React tag carries a `bx--tag--*` class |
| `TagGroup.RecolouringKeepsReactTag` | packages/web-components/src/components/tag-group/tag-group.ts:40-63 | recolouring keeps a React tag a React tag and a non-React tag a non-React tag |
| `TagGroup.RecolouringIdempotent` | packages/web-components/src/components/tag-group/tag-group.ts:31-63 | running the handler's effect on a node twice equals running it once |
| `TagGroup.CarbonTagsColoured` | packages/web-components/src/components/tag-group/tag-group.ts:47-54 | after recolouring, every Carbon tag has a `type` other than `gray` |
| `TagGroup.TagGroup.ConnectedCallback` | packages/web-components/src/components/tag-group/tag-group.ts:70-73 | `role` is set to `list`; no other modelled attribute changes (the inherited `connectedCallback` is left out) |
| `TagGroup.TagGroup.HandleSlotChange` | packages/web-components/src/components/tag-group/tag-group.ts:31-64 | each assigned node's attributes and class become their recoloured values; nodes matching neither selector are unchanged; `open` is untouched |
| `TagGroup.TagGroup.RecolourCarbonTags` | packages/web-components/src/components/tag-group/tag-group.ts:47-54 | each node's attributes become `RecolouredAttributes`; classes are untouched |
| `TagGroup.TagGroup.RecolourReactTags` | packages/web-components/src/components/tag-group/tag-group.ts:55-63 | each node's class becomes `RecolouredClassName`; attributes are untouched |
| `TagGroup.TagGroup.RecolourCarbonTag` | packages/web-components/src/components/tag-group/tag-group.ts:47-54 | one element's attributes become `RecolouredAttributes`; its class and `open` are untouched |
| `TagGroup.TagGroup.RecolourReactTag` | packages/web-components/src/components/tag-group/tag-group.ts:40-63 | one element's class becomes `RecolouredClassName`, which tests the React-tag filter first; its attributes and `open` are untouched |
| `MegaMenuHeading.RenderLink` | packages/web-components/src/components/masthead/megamenu-heading.ts:57-69 | the link inner part: an anchor with the `href`, the fixed `data-attribute1`/`data-attribute2` values, the title as `data-attribute3` and as text |
| `MegaMenuHeading.RenderPlain` | packages/web-components/src/components/masthead/megamenu-heading.ts:74-76 | the plain inner part: the title alone |
| `MegaMenuHeading.RenderHeadingInner` | packages/web-components/src/components/masthead/megamenu-heading.ts:57-123 | the link form exactly when `href` is non-empty; the link points at `href` and carries the title as `data-attribute3` and as text; otherwise plain title |
| `MegaMenuHeading.RenderHeading` | packages/web-components/src/components/masthead/megamenu-heading.ts:81-116 | levels 3 to 6 give `h3` to `h6` and every other level `h2`; the part is `heading-<tag>`; `data-has-href` exactly when `href` is non-empty |
| `MegaMenuHeading.NodesWithText` | packages/web-components/src/components/masthead/megamenu-heading.ts:126-129 | the kept nodes come from the input and have non-blank text; the result is non-empty exactly when some input node has non-blank text |
| `MegaMenuHeading.MegaMenuHeading.constructor` | packages/web-components/src/components/masthead/megamenu-heading.ts:37-47 | `href` and `title` start empty and `headingLevel` starts at 2 |
| `MegaMenuHeading.MegaMenuHeading.HandleSlotChange` | packages/web-components/src/components/masthead/megamenu-heading.ts:125-132 | `has-content` is present exactly when some assigned node has non-blank text; every other class is kept |
| `RollupConfig.ModeSuffix` | packages/web-components/tools/get-rollup-config.js:42-45 | `modeSuffixes[mode]`: empty for development, `.min` for production, `undefined` otherwise |
| `RollupConfig.DirSuffix` | packages/web-components/tools/get-rollup-config.js:52-55 | `dirSuffixes[dir]`: empty for ltr, `.rtl` for rtl, `undefined` otherwise |
| `RollupConfig.Suffix` | packages/web-components/tools/get-rollup-config.js:110 | the direction suffix followed by the mode suffix; `RollupConfig.SuffixDeterminesBuild` shows the four builds get four suffixes |
| `RollupConfig.OwnInputs` | packages/web-components/tools/get-rollup-config.js:118-139 | the `if`/`else if`/`else` assignments for one folder; see `RollupConfig.CtaInputs`, `RollupConfig.LightboxInputs` and `RollupConfig.FolderIndex` |
| `RollupConfig.ExtraInputs` | packages/web-components/tools/get-rollup-config.js:141-148 | the two extra `callout-with-media` assignments, none for other folders; see `RollupConfig.CalloutInputs` |
| `RollupConfig.Assign` | packages/web-components/tools/get-rollup-config.js:106-149 | the dictionary after a run of assignments; its keys and values are stated by the `Assign*` lemmas below |
| `RollupConfig.Inputs` | packages/web-components/tools/get-rollup-config.js:106-152 | the `input` field: the legacy and folder assignments performed on an empty dictionary |
| `RollupConfig.SuffixDeterminesBuild` | packages/web-components/tools/get-rollup-config.js:42-55 | the four builds (development/production by ltr/rtl) have four distinct suffixes |
| `RollupConfig.AssignAppend` | packages/web-components/tools/get-rollup-config.js:106-149 | performing two runs of assignments in turn equals performing them together |
| `RollupConfig.AssignKeys` | packages/web-components/tools/get-rollup-config.js:106-149 | a name is in the dictionary exactly when it was there before or some assignment writes it |
| `RollupConfig.AssignKeySet` | packages/web-components/tools/get-rollup-config.js:106-149 | the keys are exactly the suffixed base names of the assignments |
| `RollupConfig.AssignValues` | packages/web-components/tools/get-rollup-config.js:106-149 | every value was there before or is the path of some assignment |
| `RollupConfig.AssignLastWriter` | packages/web-components/tools/get-rollup-config.js:106-149 | an assignment that no later one overwrites determines its name's value |
| `RollupConfig.FolderPaths` | packages/web-components/tools/get-rollup-config.js:117-148 | no folder's assignments point at `cta/index.ts` or `lightbox-media-viewer/index.ts` |
| `RollupConfig.FoldersInputsMembers` | packages/web-components/tools/get-rollup-config.js:117-149 | the assignments for a folder list are exactly those of its folders |
| `RollupConfig.LegacyInputsPresent` | packages/web-components/tools/get-rollup-config.js:106-115 | the legacy shell and cloud masthead names are always keys, with their fixed paths unless a folder of the same name overwrites them |
| `RollupConfig.FolderInputsPresent` | packages/web-components/tools/get-rollup-config.js:117-149 | every name a listed folder writes is a key |
| `RollupConfig.NoIndexForSpecialFolders` | packages/web-components/tools/get-rollup-config.js:117-134 | no value is `cta/index.ts` or `lightbox-media-viewer/index.ts` |
| `RollupConfig.LastFolderIndex` | packages/web-components/tools/get-rollup-config.js:135-139 | the last folder, other than `cta` and `lightbox-media-viewer`, maps `<folder><sfx>` to its `index.ts` |
| `RollupConfig.FolderIndex` | packages/web-components/tools/get-rollup-config.js:117-149 | any listed folder other than `cta` and `lightbox-media-viewer` maps `<folder><sfx>` to its `index.ts`, provided no later folder writes that name with another path |
| `RollupConfig.AssignKeepsValue` | packages/web-components/tools/get-rollup-config.js:106-149 | later assignments that write a name only with the value it already holds leave that value |
| `RollupConfig.SingleFolderKeys` | packages/web-components/tools/get-rollup-config.js:106-149 | for a one-folder build, the keys are the legacy names and that folder's names, suffixed |
| `RollupConfig.DefaultInputs` | packages/web-components/tools/get-rollup-config.js:66-138 | development, ltr and `['dotcom-shell']` give exactly three unsuffixed keys: the legacy shell, the cloud masthead and `dotcom-shell` |
| `RollupConfig.CtaInputs` | packages/web-components/tools/get-rollup-config.js:118-124 | `cta` adds exactly the `cta` and `video-cta-container` names |
| `RollupConfig.LightboxInputs` | packages/web-components/tools/get-rollup-config.js:125-134 | `lightbox-media-viewer` adds exactly its image-viewer, media-viewer and video-player names |
| `RollupConfig.CalloutInputs` | packages/web-components/tools/get-rollup-config.js:135-148 | `callout-with-media` adds its own name, mapped to its `index.ts`, plus the `-image` and `-video` names |
| `RollupConfig.CssPlugins` | packages/web-components/tools/get-rollup-config.js:71-94 | the PostCSS plugin array as a value; `RollupConfig.CssPluginsOrder` states its shape |
| `RollupConfig.OutputTail` | packages/web-components/tools/get-rollup-config.js:234-236 | `license` alone in development, `terser` then `license` otherwise |
| `RollupConfig.Plugins` | packages/web-components/tools/get-rollup-config.js:151-237 | the plugin list in order; `RollupConfig.PluginsShape` states its shape |
| `RollupConfig.CssPluginsOrder` | packages/web-components/tools/get-rollup-config.js:71-94 | host-pseudo fix and autoprefixer come first; cssnano is present exactly outside development; rtlcss is present exactly for rtl and comes last; no plugin repeats |
| `RollupConfig.PluginsShape` | packages/web-components/tools/get-rollup-config.js:151-237 | license is last and appears once; terser is present exactly outside development; the SCSS plugin carries the PostCSS list; `NODE_ENV` is replaced by a JSON string that parses back to the mode |
| `RollupConfig.JsonQuote` | packages/web-components/tools/get-rollup-config.js:231 | `JSON.stringify` of a string; `RollupConfig.JsonRoundTrip` and `RollupConfig.JsonQuotePlain` state it |
| `RollupConfig.Escape` | packages/web-components/tools/get-rollup-config.js:231 | the JSON escape of one character; `RollupConfig.EscapeThenUnescape` reads it back |
| `RollupConfig.ParseJsonString` | packages/web-components/tools/get-rollup-config.js:231 | `JSON.parse` of a quoted string literal; `None` for anything else or a malformed escape |
| `RollupConfig.UnescapeEscapeAll` | packages/web-components/tools/get-rollup-config.js:231 | unescaping the escaped body of any string gives the string back |
| `RollupConfig.JsonRoundTrip` | packages/web-components/tools/get-rollup-config.js:231 | parsing `JSON.stringify(s)` as a JSON string gives `s` |
| `RollupConfig.JsonQuotePlain` | packages/web-components/tools/get-rollup-config.js:231 | a string without quotes, backslashes or control characters is stringified by wrapping it in quotes |
| `RollupConfig.DefaultConfig` | packages/web-components/tools/get-rollup-config.js:66-94 | with no options the build is development, ltr, `['dotcom-shell']`: three inputs, PostCSS plugins `[fixHostPseudo, autoprefixer]`, output tail `[license]` |
| `RollupConfig.PostCssPlugins` | packages/web-components/tools/get-rollup-config.js:71-94 | the array built by `push` is `CssPlugins(mode, dir)` |
| `RollupConfig.AddFolderInputs` | packages/web-components/tools/get-rollup-config.js:117-148 | one `forEach` step leaves the dictionary as `Assign` of that folder's assignments |
| `RollupConfig.BuildInputs` | packages/web-components/tools/get-rollup-config.js:106-149 | the dictionary filled in place is `Inputs(mode, dir, folders)` |
| `RollupConfig.GetRollupConfig` | packages/web-components/tools/get-rollup-config.js:66-241 | the configuration's input is `Inputs` and its plugins are `Plugins`, for the options with their defaults applied |

## Left out

- The `await updateComplete` and `menuBody.focus()` that follow a tooltip click that opened it: asynchronous browser behaviour.
- The tooltip's `triggerPosition` getter: it reads layout through `getBoundingClientRect`.
- Lit templates, icon factories, shadow-root creation, styles and decorator-driven attribute reflection: rendering plumbing. Rendered output is an abstract record, and properties are plain fields.
- The megamenu heading's `render` (the `heading-span` wrapper and slot) and the arrow icon in the link: template only.
- The HostListener decorator and mixin are not part of this model. The tooltip's host events are the methods `HandleClickEventAsWritten`, `HandleKeydown` and `HandleFocusout`, each called with what the listener passes.
- `CHAT_BUTTON_KIND` and `CHAT_BUTTON_SIZE` (the chat button's `defs.ts`) are not part of this model. Kinds are PRIMARY, GHOST or another value, and sizes are SMALL, MEDIUM, LARGE or another value.
- `ChatButton.Size`: `OtherSize(v)` is meant for values outside the three allowed sizes, but the model does not exclude `v` naming one of them, since their strings live in `defs.ts`. `ChatButton.AllowedSize` treats such a value as not allowed, where `allowedSizes.includes` would accept the string.
- The `find` and `forEach` collection helpers are not part of this model. Menu-body lookup is "first child flagged as a floating menu", and `forEach` is a loop over the sequence.
- `TagGroup.TagGroup.RecolourReactTags` tests the React-tag filter node by node instead of filtering first. This agrees with the source because the Carbon pass does not touch classes and recolouring keeps a React tag a React tag (`TagGroup.RecolouringKeepsReactTag`).
- `TagGroup.TagGroup.ConnectedCallback`: the `super.connectedCallback()` call (tag-group.ts:71) into `StableSelectorMixin` and `LitElement` is not modelled, because the mixin is not part of this model; the stable-selector attribute it may set is not captured.
- The tag group's `selectorTagLink` and `stableSelector` getters: the modelled handlers do not read them.
- The tag group's `${prefix}--tag--green` is modelled for any prefix without whitespace. The `^bx--tag--` pattern is the literal `bx` the source writes.
- `MegaMenuHeading.RenderHeading` takes `headingLevel` as an integer. The non-integer values an attribute converter could produce (`NaN`, fractions) are not modelled; they fall to `h2` in the source as well.
- `RollupConfig.ModeSuffix` and `RollupConfig.DirSuffix`: a mode or direction that names an inherited object property (such as `constructor`) is not modelled; every other unknown key reads `undefined`, spelled out as in the template literal.
- `RollupConfig.Assign`: a name equal to `__proto__` (a folder called `__proto__` in a build whose two suffixes are empty) creates no own property of the JavaScript object `inputs`, while `Assign` adds the key.
- `RollupConfig.Options`: an option given as `null` is not modelled; an absent option (`undefined`) takes its default.
- Plugin internals (postcss, autoprefixer, cssnano, rtlcss, babel, terser, commonjs, node-resolve, the license plugin) and their options, such as the browsers list and the babel presets: plugins are opaque tokens.
- The `licenseSelf` file read: file I/O.
- `RollupConfig.Unescape` rejects `\u` escapes of surrogate code points, and strings holding lone surrogates are not modelled: the model's characters are Unicode scalar values.
- The leaving-IBM modal body's hostname extraction: it goes through the browser's `URL` parser, a foreign call.
- The Storybook configuration and bootstrap scripts: demo wiring with no stateable behaviour.

## Findings

| source | as written | input that shows it | evidently intended | confidence | as-written member | corrected member |
|---|---|---|---|---|---|---|
| packages/carbon-web-components/src/components/tooltip/tooltip.ts:48-57 | The `click` host listener calls `_handleClick` with the DOM event as `forceState`. That is not `undefined`, so `open` becomes `Boolean(event)`, which is `true`. | A mouse click on an open tooltip leaves it open. | A click toggles `open`, as the parameter's documentation and the keyboard path (Space/Enter call `_handleClick()` with no argument) describe. | not executed | `Tooltip.ClickAsWrittenNeverCloses` | `Tooltip.Tooltip.HandleClickEvent` |
