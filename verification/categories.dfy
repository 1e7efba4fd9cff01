/** The category drop-down of `renderCategories`: a disabled prompt followed
    by one option per category, in the order the categories were listed. */
module Categories {
  import opened Gateway

  /** A category as read from one `category` element: its `id` and `name`. */
  datatype Category = Category(id: string, name: string)

  /** One `option` of the drop-down: the selected, disabled prompt, or a
      category whose value is its id and whose text is its name. */
  datatype SelectOption = Prompt(text: string) | Choice(value: string, text: string)

  /** The content of the drop-down, or the alert shown when the fetch failed
      (the drop-down is then left as it was). */
  datatype CategoriesView = Options(options: seq<SelectOption>) | Alert(message: string)

  const PromptText: string := "Seleccione una categor\U{ED}a"
  const LoadError: string := "Error en la carga de categor\U{ED}as"

  /** The options as the loop builds them: the prompt first, then one option
      appended per category. */
  function CategoryOptions(categories: seq<Category>): (options: seq<SelectOption>)
    ensures |options| == |categories| + 1
    ensures options[0] == Prompt(PromptText)
    ensures forall i :: 0 <= i < |categories| ==>
      options[i + 1] == Choice(categories[i].id, categories[i].name)
    decreases |categories|
  {
    if |categories| == 0 then
      [Prompt(PromptText)]
    else
      var last := categories[|categories| - 1];
      CategoryOptions(categories[..|categories| - 1]) + [Choice(last.id, last.name)]
  }

  /** Reads the categories back from a list of options, skipping prompts. */
  function ChosenCategories(options: seq<SelectOption>): seq<Category>
  {
    if |options| == 0 then []
    else
      match options[0]
      case Prompt(_) => ChosenCategories(options[1..])
      case Choice(value, text) => [Category(value, text)] + ChosenCategories(options[1..])
  }

  /** Number of prompts among the options. */
  function PromptCount(options: seq<SelectOption>): nat
  {
    if |options| == 0 then 0
    else (if options[0].Prompt? then 1 else 0) + PromptCount(options[1..])
  }

  lemma {:induction false} ChosenCategoriesOfChoices(categories: seq<Category>, options: seq<SelectOption>)
    requires |options| == |categories|
    requires forall i :: 0 <= i < |categories| ==> options[i] == Choice(categories[i].id, categories[i].name)
    ensures ChosenCategories(options) == categories
    ensures PromptCount(options) == 0
    decreases |options|
  {
    if |options| > 0 {
      ChosenCategoriesOfChoices(categories[1..], options[1..]);
    }
  }

  /** The drop-down lists every category once, in input order, and nothing
      else: reading its options back gives the categories, and it holds
      exactly one prompt. */
  lemma OptionsRoundTrip(categories: seq<Category>)
    ensures ChosenCategories(CategoryOptions(categories)) == categories
    ensures PromptCount(CategoryOptions(categories)) == 1
  {
    var options := CategoryOptions(categories);
    ChosenCategoriesOfChoices(categories, options[1..]);
    assert options == [options[0]] + options[1..];
  }

  /** `renderCategories`: the options after a successful fetch, otherwise the
      load-error alert. */
  function RenderCategories(fetched: FetchResult<seq<Category>>): (view: CategoriesView)
    ensures !fetched.success ==> view == Alert(LoadError)
    ensures fetched.success ==> view.Options?
    ensures fetched.success ==> |view.options| == |fetched.body| + 1
    ensures fetched.success ==> view.options[0] == Prompt(PromptText)
    ensures fetched.success ==> ChosenCategories(view.options) == fetched.body
    ensures fetched.success ==> PromptCount(view.options) == 1
  {
    if fetched.success then
      OptionsRoundTrip(fetched.body);
      Options(CategoryOptions(fetched.body))
    else
      Alert(LoadError)
  }
}
