/** The plugin itself (`payloadDub`): a function from the plugin options and
    the incoming site configuration to the configuration the site runs
    with. Unless it is switched off, it appends the links collection and
    the tags collection, and attaches the link reconciler to every enabled
    collection. */
module Plugin {
  import opened Common
  import opened DubTypes
  import opened LinkSync

  /** A lifecycle hook, as far as the transform is concerned: one the site
      already had, the link reconciler configured for a collection, or one
      of the two tag hooks. */
  datatype Hook = SiteHook(id: string) | LinkHook(cfg: HookConfig) | TagChangeHook | TagDeleteHook

  /** A collection's `hooks`; an absent list is `None`. */
  datatype Hooks = Hooks(afterChange: Option<seq<Hook>>, afterDelete: Option<seq<Hook>>)

  /** One option of the tags' colour select: its label and its value. */
  datatype ColorOption = ColorOption(caption: string, value: Color)

  /** What a collection holds besides its slug and hooks: a site
      collection's own definition, the links collection's `source`
      relationship targets (or fields from the site's override function),
      or the tags collection's colour options. */
  datatype Body =
    | SiteBody(id: string)
    | LinksBody(sourceCollections: seq<string>, defaultFields: bool)
    | TagsBody(colorOptions: seq<ColorOption>)

  datatype Collection = Collection(slug: string, hooks: Option<Hooks>, body: Body)

  /** The incoming configuration; `others` stands for everything else in
      it, which the transform passes through. */
  datatype Config = Config(collections: Option<seq<Collection>>, others: string)

  /** `pluginConfig.overrides`, as the transform reads it: the links
      collection's slug, hooks spread into both collections, and whether a
      fields function is given. */
  datatype Overrides = Overrides(slug: Option<string>, hooks: Option<Hooks>, fieldsFunction: bool)

  datatype DubConfig = DubConfig(
    collections: Option<seq<DubCollection>>,
    disabled: bool,
    domain: Option<string>,
    siteUrl: string,
    tenantId: Option<string>,
    overrides: Option<Overrides>)

  /** The slug an enabled entry names: the string itself, or its `docs`. */
  function EntrySlug(c: DubCollection): string {
    match c
    case SlugRef(s) => s
    case DocsRef(docs, _) => docs
  }

  /** `enabled.some(...)`, entry by entry. */
  function AnyEnables(enabled: seq<DubCollection>, slug: string): bool {
    if |enabled| == 0 then false
    else
      var hit := match enabled[0] case SlugRef(s) => s == slug case DocsRef(docs, _) => docs == slug;
      hit || AnyEnables(enabled[1..], slug)
  }

  /** A slug is enabled exactly when some entry names it, whichever form the
      entry takes. */
  lemma {:induction false} AnyEnablesIff(enabled: seq<DubCollection>, slug: string)
    ensures AnyEnables(enabled, slug) <==> exists i :: 0 <= i < |enabled| && EntrySlug(enabled[i]) == slug
  {
    if |enabled| > 0 {
      AnyEnablesIff(enabled[1..], slug);
      assert forall i :: 1 <= i < |enabled| ==> enabled[i] == enabled[1..][i - 1];
      if AnyEnables(enabled[1..], slug) {
        var k :| 0 <= k < |enabled[1..]| && EntrySlug(enabled[1..][k]) == slug;
        assert EntrySlug(enabled[k + 1]) == slug;
      }
    }
  }

  /** `pluginConfig.overrides?.slug || 'dubLinks'` */
  function LinksSlug(plugin: DubConfig): string {
    if plugin.overrides.Some? && Truthy(plugin.overrides.value.slug) then plugin.overrides.value.slug.value
    else "dubLinks"
  }

  /** `color.toUpperCase()` for the characters colour values are made of. */
  function UpperChar(c: char): char {
    if 'a' <= c <= 'z' then (c as int - 32) as char else c
  }

  /** `s.charAt(0).toUpperCase() + s.slice(1)` */
  function Capitalized(s: string): string {
    if |s| == 0 then "" else [UpperChar(s[0])] + s[1..]
  }

  /** `Object.values(DubColors).map(...)`, in declaration order. */
  function ColorOptions(colors: seq<Color>): seq<ColorOption> {
    if |colors| == 0 then []
    else [ColorOption(Capitalized(ColorValue(colors[0])), colors[0])] + ColorOptions(colors[1..])
  }

  /** The option at each position is the one made from the colour there. */
  lemma {:induction false} ColorOptionsAt(colors: seq<Color>)
    ensures |ColorOptions(colors)| == |colors|
    ensures forall i :: 0 <= i < |colors| ==>
      ColorOptions(colors)[i] == ColorOption(Capitalized(ColorValue(colors[i])), colors[i])
  {
    if |colors| > 0 {
      ColorOptionsAt(colors[1..]);
      assert forall i :: 1 <= i < |colors| ==> ColorOptions(colors)[i] == ColorOptions(colors[1..])[i - 1];
    }
  }

  /** A colour's label: its value with the first letter upper-cased. */
  lemma CapitalizedValue(c: Color)
    ensures var o := Capitalized(ColorValue(c));
      var v := ColorValue(c);
      && |o| == |v| && o[1..] == v[1..]
      && 'A' <= o[0] <= 'Z' && o[0] as int == v[0] as int - 32
  {
  }

  /** One option per colour, in order; each label is the colour's value with
      its first letter upper-cased and the rest kept. */
  lemma ColorOptionsShape(colors: seq<Color>)
    ensures |ColorOptions(colors)| == |colors|
    ensures forall i :: 0 <= i < |colors| ==>
      var o := ColorOptions(colors)[i];
      var v := ColorValue(colors[i]);
      && o.value == colors[i]
      && |o.caption| == |v| && o.caption[1..] == v[1..]
      && 'A' <= o.caption[0] <= 'Z' && o.caption[0] as int == v[0] as int - 32
  {
    ColorOptionsAt(colors);
    forall i | 0 <= i < |colors| {
      CapitalizedValue(colors[i]);
    }
  }

  /** Every colour listed has its option, labelled with its capitalised
      value. */
  lemma {:induction false} ColorOptionsCover(colors: seq<Color>)
    ensures forall c :: c in colors ==> ColorOption(Capitalized(ColorValue(c)), c) in ColorOptions(colors)
  {
    if |colors| > 0 {
      ColorOptionsCover(colors[1..]);
    }
  }

  /** The tags collection offers every colour there is. */
  lemma TagColorOptions()
    ensures |ColorOptions(AllColors)| == 7
    ensures forall c: Color :: ColorOption(Capitalized(ColorValue(c)), c) in ColorOptions(AllColors)
  {
    ColorOptionsShape(AllColors);
    AllColorsEnumerates();
    ColorOptionsCover(AllColors);
  }

  /** For example, the first option is `Blue` for `blue`. */
  lemma FirstColorOption()
    ensures ColorOptions(AllColors)[0] == ColorOption("Blue", Blue)
  {
    assert Capitalized("blue") == [UpperChar('b')] + "lue";
  }

  /** The mapping-records collection. */
  function LinksCollection(plugin: DubConfig, enabled: seq<DubCollection>): Collection {
    Collection(LinksSlug(plugin),
               if plugin.overrides.Some? then plugin.overrides.value.hooks else None,
               LinksBody(SourceCollections(enabled), plugin.overrides.None? || !plugin.overrides.value.fieldsFunction))
  }

  function SourceCollections(enabled: seq<DubCollection>): seq<string> {
    if |enabled| == 0 then [] else [EntrySlug(enabled[0])] + SourceCollections(enabled[1..])
  }

  /** The `source` relationship may point at exactly the enabled collections,
      in the order they are listed. */
  lemma {:induction false} SourceCollectionsAre(enabled: seq<DubCollection>)
    ensures |SourceCollections(enabled)| == |enabled|
    ensures forall i :: 0 <= i < |enabled| ==> SourceCollections(enabled)[i] == EntrySlug(enabled[i])
  {
    if |enabled| > 0 {
      SourceCollectionsAre(enabled[1..]);
      assert forall i :: 1 <= i < |enabled| ==> SourceCollections(enabled)[i] == SourceCollections(enabled[1..])[i - 1];
    }
  }

  /** The tags collection, with the two tag hooks. */
  function TagsCollection(): Collection {
    Collection("dubTags", Some(Hooks(Some([TagChangeHook]), Some([TagDeleteHook]))), TagsBody(ColorOptions(AllColors)))
  }

  /** The link reconciler for one collection. */
  function HookFor(plugin: DubConfig, slug: string): Hook {
    LinkHook(HookConfig(slug, plugin.domain, plugin.siteUrl, plugin.tenantId))
  }

  /** One collection of the map: the reconciler appended to its
      `afterChange` hooks when an entry enables it, else unchanged. */
  function Attach(plugin: DubConfig, enabled: seq<DubCollection>, c: Collection): Collection {
    if !AnyEnables(enabled, c.slug) then c
    else
      var afterChange := if c.hooks.Some? && c.hooks.value.afterChange.Some? then c.hooks.value.afterChange.value else [];
      var afterDelete := if c.hooks.Some? then c.hooks.value.afterDelete else None;
      c.(hooks := Some(Hooks(Some(afterChange + [HookFor(plugin, c.slug)]), afterDelete)))
  }

  function AttachAll(plugin: DubConfig, enabled: seq<DubCollection>, cs: seq<Collection>): (r: seq<Collection>)
    ensures |r| == |cs|
  {
    if |cs| == 0 then [] else [Attach(plugin, enabled, cs[0])] + AttachAll(plugin, enabled, cs[1..])
  }

  /** The transform. */
  function PayloadDub(plugin: DubConfig, incoming: Config): Config {
    if plugin.collections.None? || plugin.disabled then incoming
    else
      var enabled := plugin.collections.value;
      var updated := (if incoming.collections.Some? then incoming.collections.value else []) +
                     [LinksCollection(plugin, enabled), TagsCollection()];
      incoming.(collections := Some(AttachAll(plugin, enabled, updated)))
  }

  lemma {:induction false} AttachAllAt(plugin: DubConfig, enabled: seq<DubCollection>, cs: seq<Collection>)
    ensures |AttachAll(plugin, enabled, cs)| == |cs|
    ensures forall i :: 0 <= i < |cs| ==> AttachAll(plugin, enabled, cs)[i] == Attach(plugin, enabled, cs[i])
  {
    if |cs| > 0 {
      AttachAllAt(plugin, enabled, cs[1..]);
      assert forall i :: 1 <= i < |cs| ==> AttachAll(plugin, enabled, cs)[i] == AttachAll(plugin, enabled, cs[1..])[i - 1];
    }
  }

  /** Attaching keeps the slug and the body; an enabled collection keeps its
      `afterChange` hooks in order with the reconciler for its own slug
      last, and keeps its `afterDelete` hooks; any other collection is
      returned as it was. */
  lemma AttachKeeps(plugin: DubConfig, enabled: seq<DubCollection>, c: Collection)
    ensures var a := Attach(plugin, enabled, c);
      && a.slug == c.slug && a.body == c.body
      && (!(exists i :: 0 <= i < |enabled| && EntrySlug(enabled[i]) == c.slug) ==> a == c)
      && ((exists i :: 0 <= i < |enabled| && EntrySlug(enabled[i]) == c.slug) ==>
            var before := if c.hooks.Some? && c.hooks.value.afterChange.Some? then c.hooks.value.afterChange.value else [];
            && a.hooks.Some? && a.hooks.value.afterChange == Some(before + [LinkHook(HookConfig(c.slug, plugin.domain, plugin.siteUrl, plugin.tenantId))])
            && a.hooks.value.afterDelete == (if c.hooks.Some? then c.hooks.value.afterDelete else None))
  {
    AnyEnablesIff(enabled, c.slug);
  }

  /** Without `collections`, or when switched off, the plugin hands the
      configuration back untouched. */
  lemma DisabledIsIdentity(plugin: DubConfig, incoming: Config)
    requires plugin.collections.None? || plugin.disabled
    ensures PayloadDub(plugin, incoming) == incoming
  {
  }

  /** Switched on, the plugin keeps the incoming collections in their order
      (each with its slug and body) and appends the links collection and
      then `dubTags`; nothing outside the collections changes. */
  lemma CollectionsAppended(plugin: DubConfig, incoming: Config)
    requires plugin.collections.Some? && !plugin.disabled
    ensures var out := PayloadDub(plugin, incoming);
      var ins := if incoming.collections.Some? then incoming.collections.value else [];
      && out.others == incoming.others && out.collections.Some?
      && |out.collections.value| == |ins| + 2
      && (forall i :: 0 <= i < |ins| ==>
            out.collections.value[i].slug == ins[i].slug && out.collections.value[i].body == ins[i].body)
      && out.collections.value[|ins|].slug == LinksSlug(plugin)
      && out.collections.value[|ins|].body == LinksBody(SourceCollections(plugin.collections.value),
                                                       plugin.overrides.None? || !plugin.overrides.value.fieldsFunction)
      && out.collections.value[|ins| + 1].slug == "dubTags"
  {
    var enabled := plugin.collections.value;
    var ins := if incoming.collections.Some? then incoming.collections.value else [];
    var updated := ins + [LinksCollection(plugin, enabled), TagsCollection()];
    AttachAllAt(plugin, enabled, updated);
    forall i | 0 <= i < |updated| ensures AttachAll(plugin, enabled, updated)[i].slug == updated[i].slug &&
                                          AttachAll(plugin, enabled, updated)[i].body == updated[i].body {
      AttachKeeps(plugin, enabled, updated[i]);
    }
  }

  /** Switched on, every collection of the result, the plugin's own
      included, gets the reconciler exactly when an enabled entry names its
      slug, as the last of its `afterChange` hooks; every other collection
      is left as it came. */
  lemma HooksAttachedSelectively(plugin: DubConfig, incoming: Config, i: nat)
    requires plugin.collections.Some? && !plugin.disabled
    requires var ins := if incoming.collections.Some? then incoming.collections.value else []; i < |ins| + 2
    ensures var ins := if incoming.collections.Some? then incoming.collections.value else [];
      var c := (ins + [LinksCollection(plugin, plugin.collections.value), TagsCollection()])[i];
      var a := PayloadDub(plugin, incoming).collections.value[i];
      var enables := exists k :: 0 <= k < |plugin.collections.value| && EntrySlug(plugin.collections.value[k]) == c.slug;
      && (!enables ==> a == c)
      && (enables ==> a.hooks.Some? && a.hooks.value.afterChange.Some? &&
                      |a.hooks.value.afterChange.value| > 0 &&
                      a.hooks.value.afterChange.value[|a.hooks.value.afterChange.value| - 1] == HookFor(plugin, c.slug) &&
                      a.hooks.value.afterChange.value[..|a.hooks.value.afterChange.value| - 1] ==
                        (if c.hooks.Some? && c.hooks.value.afterChange.Some? then c.hooks.value.afterChange.value else []))
  {
    var enabled := plugin.collections.value;
    var ins := if incoming.collections.Some? then incoming.collections.value else [];
    var updated := ins + [LinksCollection(plugin, enabled), TagsCollection()];
    AttachAllAt(plugin, enabled, updated);
    AttachKeeps(plugin, enabled, updated[i]);
  }

  /** The links collection is called `dubLinks` unless the override gives a
      non-empty slug. */
  lemma LinksSlugDefault(plugin: DubConfig)
    ensures LinksSlug(plugin) == "dubLinks" <==>
      plugin.overrides.None? || !Truthy(plugin.overrides.value.slug) || plugin.overrides.value.slug.value == "dubLinks"
  {
  }
}
