/** pages/form/composables/useFieldTypes.ts: the palette of field templates the
    builder offers, grouped by category, and its two lookups. */
module FieldTypes {
  import opened Common
  import opened FormModel

  datatype Category = InputCategory | SelectCategory | DateCategory | FileCategory | ControlCategory {
    function Id(): string {
      match this
      case InputCategory => "input"
      case SelectCategory => "select"
      case DateCategory => "date"
      case FileCategory => "file"
      case ControlCategory => "control"
    }
  }

  /** The part of a field a template pre-fills (`Partial<FormField>`). */
  datatype DefaultProps = DefaultProps(
    placeholder: Option<string>,
    validation: Option<FieldValidation>,
    options: Option<seq<FieldOption>>,
    accept: Option<string>,
    min: Option<int>,
    max: Option<int>)

  datatype FieldTemplate = FieldTemplate(
    ftype: FieldType, labelText: string, icon: string, category: Category,
    hasOptions: Option<bool>, defaultProps: Option<DefaultProps>)

  function Placeholder(p: string): Option<DefaultProps> {
    Some(DefaultProps(Some(p), None, None, None, None, None))
  }

  function Choice(labelText: string, value: string): FieldOption {
    FieldOption(labelText, OptStr(value), None)
  }

  const EmailRule := FieldValidation(None, None, None, None, None, None, Some(true))

  /** fieldTemplates, in catalog order. */
  const FieldTemplates: seq<FieldTemplate> := [
    FieldTemplate(Text, "Texte", "i-heroicons-pencil-square", InputCategory, None, Placeholder("Saisissez votre texte...")),
    FieldTemplate(Email, "Email", "i-heroicons-at-symbol", InputCategory, None,
                  Some(DefaultProps(Some("exemple@domaine.com"), Some(EmailRule), None, None, None, None))),
    FieldTemplate(Password, "Mot de passe", "i-heroicons-lock-closed", InputCategory, None, Placeholder("••••••••")),
    FieldTemplate(Number, "Nombre", "i-heroicons-hashtag", InputCategory, None, Placeholder("0")),
    FieldTemplate(Tel, "Téléphone", "i-heroicons-phone", InputCategory, None, Placeholder("+33 1 23 45 67 89")),
    FieldTemplate(Textarea, "Zone de texte", "i-heroicons-document-text", InputCategory, None, Placeholder("Votre message...")),
    FieldTemplate(Select, "Liste déroulante", "i-heroicons-chevron-down", SelectCategory, Some(true),
                  Some(DefaultProps(Some("Choisissez une option"), None,
                                    Some([Choice("Option 1", "option1"), Choice("Option 2", "option2")]), None, None, None))),
    FieldTemplate(Radio, "Boutons radio", "i-heroicons-radio", SelectCategory, Some(true),
                  Some(DefaultProps(None, None, Some([Choice("Choix 1", "choice1"), Choice("Choix 2", "choice2")]), None, None, None))),
    FieldTemplate(Checkbox, "Cases à cocher", "i-heroicons-check-circle", SelectCategory, Some(true),
                  Some(DefaultProps(None, None, Some([Choice("Option 1", "opt1"), Choice("Option 2", "opt2")]), None, None, None))),
    FieldTemplate(Date, "Date", "i-heroicons-calendar-days", DateCategory, None, None),
    FieldTemplate(DatetimeLocal, "Date et heure", "i-heroicons-clock", DateCategory, None, None),
    FieldTemplate(File, "Fichier", "i-heroicons-document-arrow-up", FileCategory, None,
                  Some(DefaultProps(None, None, None, Some("*"), None, None))),
    FieldTemplate(Switch, "Interrupteur", "i-heroicons-power", ControlCategory, None, None),
    FieldTemplate(Range, "Curseur", "i-heroicons-adjustments-horizontal", ControlCategory, None,
                  Some(DefaultProps(None, None, None, None, Some(0), Some(100))))
  ]

  datatype FieldCategory = FieldCategory(id: string, labelText: string, icon: string)

  /** fieldCategories, in display order. */
  const FieldCategories: seq<FieldCategory> := [
    FieldCategory("input", "Saisie", "i-heroicons-pencil-square"),
    FieldCategory("select", "Sélection", "i-heroicons-check-circle"),
    FieldCategory("date", "Date", "i-heroicons-calendar-days"),
    FieldCategory("file", "Fichier", "i-heroicons-document-arrow-up"),
    FieldCategory("control", "Contrôles", "i-heroicons-adjustments-horizontal")
  ]

  function CategoryIs(category: string): FieldTemplate -> bool {
    (t: FieldTemplate) => t.category.Id() == category
  }

  function TypeIs(ftype: string): FieldTemplate -> bool {
    (t: FieldTemplate) => t.ftype.Name() == ftype
  }

  /** getFieldsByCategory: the templates of that category, in catalog order. */
  function GetFieldsByCategory(category: string): seq<FieldTemplate> {
    Filter(FieldTemplates, CategoryIs(category))
  }

  lemma CategoryFilter(s: seq<FieldTemplate>, category: string)
    ensures forall t :: t in Filter(s, CategoryIs(category)) <==> t in s && t.category.Id() == category
  {
  }

  /** getFieldsByCategory returns exactly the templates of that category. */
  lemma GetFieldsByCategorySpec(category: string)
    ensures forall t :: t in GetFieldsByCategory(category) <==> t in FieldTemplates && t.category.Id() == category
  {
    CategoryFilter(FieldTemplates, category);
  }

  /** getFieldsByCategory keeps catalog order: of two templates it returns, the
      earlier sits earlier in the catalog. */
  lemma GetFieldsByCategoryInOrder(category: string)
    ensures var r := GetFieldsByCategory(category);
            forall i, j :: 0 <= i < j < |r| ==> TemplateIndex(r[i].ftype) < TemplateIndex(r[j].ftype)
  {
    TemplateIndexAgrees();
    FilterKeepsIncreasing(FieldTemplates, CategoryIs(category), (t: FieldTemplate) => TemplateIndex(t.ftype));
  }

  /** getFieldTemplate: the first template of that type, if any. */
  function GetFieldTemplate(ftype: string): (r: Option<FieldTemplate>)
    ensures r.Some? ==> r.value in FieldTemplates && r.value.ftype.Name() == ftype
    ensures r.None? <==> forall i :: 0 <= i < |FieldTemplates| ==> FieldTemplates[i].ftype.Name() != ftype
  {
    Find(FieldTemplates, TypeIs(ftype))
  }

  /** Where each type sits in the catalog; -1 for the two types without a template. */
  function TemplateIndex(ft: FieldType): int {
    match ft
    case Text => 0 case Email => 1 case Password => 2 case Number => 3 case Tel => 4
    case Textarea => 5 case Select => 6 case Radio => 7 case Checkbox => 8 case Date => 9
    case DatetimeLocal => 10 case File => 11 case Switch => 12 case Range => 13
    case Url => -1 case Multiselect => -1
  }

  lemma TemplateIndexAgrees()
    ensures |FieldTemplates| == 14
    ensures forall i :: 0 <= i < |FieldTemplates| ==> TemplateIndex(FieldTemplates[i].ftype) == i
  {
  }

  /** The catalog has 14 templates, no two of the same type, and none for url or
      multiselect; every other type has one. */
  lemma CatalogTypes()
    ensures |FieldTemplates| == 14
    ensures forall i, j :: 0 <= i < j < |FieldTemplates| ==> FieldTemplates[i].ftype != FieldTemplates[j].ftype
    ensures forall t :: t in FieldTemplates ==> t.ftype != Url && t.ftype != Multiselect
    ensures forall ft: FieldType :: ft != Url && ft != Multiselect ==>
              0 <= TemplateIndex(ft) < 14 && FieldTemplates[TemplateIndex(ft)].ftype == ft
  {
    TemplateIndexAgrees();
    forall t | t in FieldTemplates ensures t.ftype != Url && t.ftype != Multiselect {
      var i :| 0 <= i < |FieldTemplates| && FieldTemplates[i] == t;
      assert TemplateIndex(t.ftype) == i;
    }
    forall ft: FieldType | ft != Url && ft != Multiselect
      ensures 0 <= TemplateIndex(ft) < 14 && FieldTemplates[TemplateIndex(ft)].ftype == ft
    {
      TemplateAt(ft);
    }
  }

  lemma TemplateAt(ft: FieldType)
    requires ft != Url && ft != Multiselect
    ensures 0 <= TemplateIndex(ft) < 14 && FieldTemplates[TemplateIndex(ft)].ftype == ft
  {
    match ft
    case Text => case Email => case Password => case Number => case Tel => case Textarea =>
    case Select => case Radio => case Checkbox => case Date => case DatetimeLocal => case File =>
    case Switch => case Range =>
  }

  /** The two type names without a template find nothing. */
  lemma NoUrlOrMultiselectTemplate()
    ensures GetFieldTemplate("url").None? && GetFieldTemplate("multiselect").None?
  {
    TemplateIndexAgrees();
    forall i | 0 <= i < |FieldTemplates|
      ensures FieldTemplates[i].ftype.Name() != "url" && FieldTemplates[i].ftype.Name() != "multiselect"
    {
      var ft := FieldTemplates[i].ftype;
      assert TemplateIndex(ft) == i;
      NameInjective(ft, Url);
      NameInjective(ft, Multiselect);
    }
  }

  /** Every other field type finds its own template. */
  lemma EveryOtherTypeHasTemplate(ft: FieldType)
    requires ft != Url && ft != Multiselect
    ensures GetFieldTemplate(ft.Name()).Some? && GetFieldTemplate(ft.Name()).value.ftype == ft
  {
    TemplateAt(ft);
    var k := TemplateIndex(ft);
    assert FieldTemplates[k].ftype.Name() == ft.Name();
    var r := GetFieldTemplate(ft.Name());
    assert r.Some?;
    NameInjective(r.value.ftype, ft);
  }

  lemma NameInjective(a: FieldType, b: FieldType)
    ensures a.Name() == b.Name() ==> a == b
  {
  }

  /** Options are offered exactly by select, radio and checkbox. */
  lemma OptionTemplates()
    ensures forall i :: 0 <= i < |FieldTemplates| ==>
              (FieldTemplates[i].hasOptions == Some(true) <==> FieldTemplates[i].ftype in {Select, Radio, Checkbox})
    ensures forall i :: 0 <= i < |FieldTemplates| ==>
              FieldTemplates[i].hasOptions == Some(true) || FieldTemplates[i].hasOptions.None?
  {
  }

  /** Each of them is pre-filled with two choices, and no other template has any. */
  lemma OptionDefaults()
    ensures forall i :: 6 <= i <= 8 ==>
              FieldTemplates[i].defaultProps.Some? && FieldTemplates[i].defaultProps.value.options.Some?
              && |FieldTemplates[i].defaultProps.value.options.value| == 2
    ensures forall i :: 0 <= i < |FieldTemplates| && !(6 <= i <= 8) ==>
              FieldTemplates[i].defaultProps.None? || FieldTemplates[i].defaultProps.value.options.None?
  {
  }

  /** The e-mail template asks for the e-mail rule; the range goes from 0 to 100. */
  lemma EmailAndRangeDefaults()
    ensures FieldTemplates[1].ftype == Email && FieldTemplates[1].defaultProps.value.validation == Some(EmailRule)
    ensures EmailRule.email == Some(true) && EmailRule.required.None?
    ensures FieldTemplates[13].ftype == Range
            && FieldTemplates[13].defaultProps.value.min == Some(0) && FieldTemplates[13].defaultProps.value.max == Some(100)
  {
  }

  /** The index of a template of each category. */
  function FirstOf(c: Category): nat {
    match c
    case InputCategory => 0 case SelectCategory => 6 case DateCategory => 9
    case FileCategory => 11 case ControlCategory => 12
  }

  /** The display entry of each category. */
  function EntryOf(c: Category): nat {
    match c
    case InputCategory => 0 case SelectCategory => 1 case DateCategory => 2
    case FileCategory => 3 case ControlCategory => 4
  }

  function CategoryAt(i: nat): Category {
    if i == 0 then InputCategory else if i == 1 then SelectCategory else if i == 2 then DateCategory
    else if i == 3 then FileCategory else ControlCategory
  }

  lemma CategoryIndexes()
    ensures forall c: Category :: FirstOf(c) < |FieldTemplates| && FieldTemplates[FirstOf(c)].category == c
    ensures forall c: Category :: EntryOf(c) < |FieldCategories| && FieldCategories[EntryOf(c)].id == c.Id()
    ensures forall i :: 0 <= i < |FieldCategories| ==> EntryOf(CategoryAt(i)) == i
  {
    assert EntryOf(InputCategory) == 0 && EntryOf(SelectCategory) == 1 && EntryOf(DateCategory) == 2;
    assert EntryOf(FileCategory) == 3 && EntryOf(ControlCategory) == 4;
  }

  /** Every category shown has at least one template, and every template's category
      is shown. */
  lemma CategoriesCovered()
    ensures forall c :: c in FieldCategories ==> GetFieldsByCategory(c.id) != []
    ensures forall t :: t in FieldTemplates ==> exists c :: c in FieldCategories && c.id == t.category.Id()
  {
    CategoryIndexes();
    forall c | c in FieldCategories ensures GetFieldsByCategory(c.id) != [] {
      GetFieldsByCategorySpec(c.id);
      var i :| 0 <= i < |FieldCategories| && FieldCategories[i] == c;
      var cat := CategoryAt(i);
      var t := FieldTemplates[FirstOf(cat)];
      assert t in FieldTemplates && t.category.Id() == c.id;
    }
    forall t | t in FieldTemplates ensures exists c :: c in FieldCategories && c.id == t.category.Id() {
      assert FieldCategories[EntryOf(t.category)] in FieldCategories;
    }
  }
}
