/** composables/useIconManager.ts: the table of known icon names with an emoji and a
    text alternative for each, and the lookups that fill the props of an icon
    component from it. */
module IconManager {
  import opened Common
  import opened Strings

  datatype IconConfig = IconConfig(emoji: string, alt: string)

  /** iconMap. */
  const IconMap: map<string, IconConfig> := map[
    "heroicons:shield-check" := IconConfig("\U{1F6E1}\U{FE0F}", "security"),
    "heroicons:arrow-right-on-rectangle" := IconConfig("\U{1F511}", "login"),
    "heroicons:home" := IconConfig("\U{1F3E0}", "home"),
    "heroicons:document-text" := IconConfig("\U{1F4C4}", "document"),
    "heroicons:check-circle" := IconConfig("\U{2705}", "success"),
    "heroicons:check" := IconConfig("\U{2705}", "check"),
    "heroicons:exclamation-triangle" := IconConfig("\U{26A0}\U{FE0F}", "warning"),
    "heroicons:x-mark" := IconConfig("\U{274C}", "close"),
    "heroicons:arrow-path" := IconConfig("\U{21BB}", "refresh"),
    "heroicons:chevron-left" := IconConfig("\U{2039}", "previous"),
    "heroicons:chevron-right" := IconConfig("\U{203A}", "next"),
    "heroicons:arrow-left" := IconConfig("\U{2190}", "back"),
    "heroicons:heart" := IconConfig("\U{2764}\U{FE0F}", "favorite"),
    "heroicons:magnifying-glass" := IconConfig("\U{1F50D}", "search"),
    "heroicons:play" := IconConfig("\U{25B6}\U{FE0F}", "play"),
    "heroicons:clock" := IconConfig("\U{1F550}", "time"),
    "heroicons:queue-list" := IconConfig("\U{1F4CB}", "list"),
    "heroicons:tag" := IconConfig("\U{1F3F7}\U{FE0F}", "tag"),
    "heroicons:document-duplicate" := IconConfig("\U{1F4C4}", "duplicate")
  ]

  /** Every key of the table names a Heroicons icon, and every entry has a non-empty
      emoji and alternative text. */
  lemma IconMapShape()
    ensures forall n :: n in IconMap ==> StartsWith(n, "heroicons:")
    ensures forall n :: n in IconMap ==> IconMap[n].emoji != "" && IconMap[n].alt != ""
  {
    IconNames();
    IconEntries();
  }

  lemma IconNames()
    ensures forall n :: n in IconMap ==> StartsWith(n, "heroicons:")
  {
  }

  lemma IconEntries()
    ensures forall n :: n in IconMap ==> IconMap[n].emoji != "" && IconMap[n].alt != ""
  {
  }

  /** The properties every plain object inherits from Object.prototype; reading any of
      them on the table yields a function (or, for `__proto__`, the prototype object),
      which is truthy. */
  const ObjectPrototypeNames: set<string> := {
    "constructor", "toString", "toLocaleString", "valueOf", "hasOwnProperty", "isPrototypeOf",
    "propertyIsEnumerable", "__proto__", "__defineGetter__", "__defineSetter__",
    "__lookupGetter__", "__lookupSetter__"
  }

  /** isIconAvailable as written: `!!iconMap[iconName]` also finds inherited names. */
  predicate IsIconAvailableAsWritten(iconName: string) {
    iconName in IconMap || iconName in ObjectPrototypeNames
  }

  /** isIconAvailable as intended: the name is a key of the table. */
  predicate IsIconAvailable(iconName: string) {
    iconName in IconMap
  }

  /** "toString" passes the written test although the table has no such icon and its
      fallback is the generic bullet. */
  lemma InheritedNameLooksAvailable()
    ensures IsIconAvailableAsWritten("toString")
    ensures !IsIconAvailable("toString")
    ensures GetIconFallback("toString") == "●"
  {
    IconNames();
    assert !StartsWith("toString", "heroicons:");
  }

  /** The two tests agree on every name that is not inherited from Object.prototype,
      so on every Heroicons name. */
  lemma AvailabilityAgreesOffPrototype(iconName: string)
    requires iconName !in ObjectPrototypeNames
    ensures IsIconAvailableAsWritten(iconName) <==> IsIconAvailable(iconName)
  {
  }

  /** getIconFallback: `iconMap[iconName]?.emoji || '●'` (an inherited member has no
      `emoji`, so it falls back too). */
  function GetIconFallback(iconName: string): (r: string)
    ensures iconName in IconMap && IconMap[iconName].emoji != "" ==> r == IconMap[iconName].emoji
    ensures iconName !in IconMap ==> r == "●"
  {
    if iconName in IconMap then OrElse(Some(IconMap[iconName].emoji), "●") else "●"
  }

  /** getIconAlt: `iconMap[iconName]?.alt || 'icon'`. */
  function GetIconAlt(iconName: string): (r: string)
    ensures iconName in IconMap && IconMap[iconName].alt != "" ==> r == IconMap[iconName].alt
    ensures iconName !in IconMap ==> r == "icon"
  {
    if iconName in IconMap then OrElse(Some(IconMap[iconName].alt), "icon") else "icon"
  }

  /** Known icons get their own emoji and text; unknown ones the two defaults. */
  lemma FallbacksNeverEmpty(iconName: string)
    ensures GetIconFallback(iconName) != "" && GetIconAlt(iconName) != ""
    ensures IsIconAvailable(iconName) ==>
              GetIconFallback(iconName) == IconMap[iconName].emoji && GetIconAlt(iconName) == IconMap[iconName].alt
  {
    IconMapShape();
  }

  lemma HomeIcon()
    ensures GetIconAlt("heroicons:home") == "home" && GetIconFallback("heroicons:home") == "\U{1F3E0}"
  {
  }

  datatype IconProps = IconProps(name: string, fallback: string, alt: string, role: string, ariaLabel: string)

  /** getIconProps; `fallback` is the optional argument. */
  function GetIconProps(iconName: string, fallback: Option<string>): (r: IconProps)
    ensures r.name == iconName && r.role == "img"
    ensures r.fallback == (if fallback.Some? && fallback.value != "" then fallback.value else GetIconFallback(iconName))
    ensures r.alt == GetIconAlt(iconName) && r.ariaLabel == r.alt
  {
    var alt := GetIconAlt(iconName);
    IconProps(iconName, OrElse(fallback, GetIconFallback(iconName)), alt, "img", alt)
  }

  datatype RenderedIcon = RenderedIcon(component: string, props: IconProps, cssClass: string)

  /** renderIcon; `classes` defaults to ''. */
  function RenderIcon(iconName: string, classes: Option<string>, fallback: Option<string>): (r: RenderedIcon)
    ensures r.component == "Icon" && r.props == GetIconProps(iconName, fallback)
    ensures r.cssClass == "inline-block " + classes.GetOr("")
  {
    RenderedIcon("Icon", GetIconProps(iconName, fallback), "inline-block " + classes.GetOr(""))
  }
}
