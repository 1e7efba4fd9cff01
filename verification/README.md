# Product showcase page: tally, results table, product cards and category options

This project models the data transforms of a small retail showcase page
(`js/file01.js`). The page fetches products and categories and renders them.
It also lists the recorded votes and shows how many each product received.
The page mixes these transforms with DOM writes. Here each transform is a pure
function over immutable values:

- `Tally` — the vote counting loop of `displayVotes`, with the counter the page
  evidently intends: each vote record adds one to its product id's count, and
  an unseen id starts from zero. The page's own counter differs for ids that
  name `Object.prototype` members (see `ObjectTally` and "Findings").
- `Results` — the results container. If the store read failed, it shows a fixed
  message. Otherwise it shows a table with one row per tally entry. Each row is
  labelled `Producto <id>` and shows that id's count.
- `Products` — `renderProducts`. It keeps the first six products. A title longer
  than twenty characters is cut to twenty and gets `...` appended.
- `Categories` — `renderCategories`. It builds a disabled prompt option, then one
  option per category: value is the id, text is the name, in input order.
- `ObjectTally` — the counter exactly as the page writes it: a plain JavaScript
  object. That object inherits `Object.prototype`, which breaks the count (see
  "Findings").
- `Gateway` — the shape of a fetch outcome.
- `Enumeration` — duplicate-free sequences and orders that list a set's
  elements exactly once, used for the order of the table rows.

The external fetch helpers and the vote store are not modelled. Their outcomes
are inputs: a success or `status` flag plus an already-parsed body.

A successful read with no votes still writes the table header with zero body
rows; no empty-state message is shown (`Results.DisplayVotes`).

The source calls the product's category field `category_id` (js/file01.js:59).
`Products.Product.categoryId` models that field.

## Model

| member | source | states |
|---|---|---|
| Tally.Aggregate | js/file01.js:150-154 | The tally's keys are exactly the ids some vote names. Each count equals that id's number of occurrences among the votes, so no entry is zero. No votes give an empty tally. |
| Tally.TotalIncrement | js/file01.js:153 | One step of the counting loop raises the sum of all counts by exactly one, whether the id was new or already counted. |
| Tally.TallySumsToVotes | js/file01.js:150-154 | The counts of the tally add up to the number of vote records read. |
| Tally.NoVotesNoTally | js/file01.js:150-154 | An empty vote collection yields an empty tally. |
| Results.LabelInjective | js/file01.js:158 | Two rows have the same `Producto <id>` label exactly when they are for the same id. |
| Results.RowsMatchTally | js/file01.js:155-162 | For any order that enumerates the tally's keys, there are exactly as many rows as tally entries. Each row shows an entry's id and that entry's count. Every entry has a row, and no two rows share a label. |
| Results.RowsSumToTotal | js/file01.js:155-162 | Whatever the enumeration order, the counts shown in the rows add up to the tally's total. |
| Results.TallyHasEnumeration | js/file01.js:155 | Every tally has an enumeration of its keys: the ids in order of first vote. So the table can always be drawn. |
| Results.DisplayVotes | js/file01.js:136-173 | When `status` is false, the content is exactly `<p>No hay votos registrados</p>` and does not depend on the votes. Otherwise it is a table whose i-th row is for the i-th key in the engine's enumeration order, with one row per voted id, showing that id's number of votes, with no other rows and no repeated label. With no votes, the table has no rows, not a message. |
| Results.ShownCountsSumToVotes | js/file01.js:150-162 | After a successful read, the counts in the table add up to the number of vote records. |
| Results.ExampleTable | js/file01.js:137-169 | Votes for A, B, A give a two-row table: A with 2 votes, B with 1. |
| Products.ShownTitle | js/file01.js:55 | A title of at most 20 characters is shown unchanged. A longer title shows its first 20 characters followed by `...`. A shown title is at most 23 characters long. |
| Products.ShownTitleIdempotent | js/file01.js:55 | Shortening an already shortened title changes nothing. |
| Products.TakeCards | js/file01.js:33-34 | Gives min(n, number of products) cards. Card i is filled from product i, so the cards follow the first products in their original order. |
| Products.CardsIgnoreTail | js/file01.js:33 | Products after the sixth never affect the cards. |
| Products.RenderProducts | js/file01.js:28-70 | A successful fetch shows min(6, n) cards. Card i carries the shortened title of product i, plus its price, image URL, product URL and category id. A failed fetch leaves the container unchanged. |
| Categories.CategoryOptions | js/file01.js:89-100 | There is one option more than there are categories. The first is the prompt `Seleccione una categoría`. Option i+1 has category i's id as value and its name as text. |
| Categories.OptionsRoundTrip | js/file01.js:89-100 | Reading the choices back from the options gives exactly the input categories, in order. The options hold exactly one prompt. |
| Categories.RenderCategories | js/file01.js:85-104 | A successful fetch gives the prompt followed by the categories' options, read back as the input. A failed fetch gives the alert `Error en la carga de categorías`. |
| ObjectTally.AsWrittenAgreesOffPrototype | js/file01.js:150-154 | If no vote names a member inherited from `Object.prototype`, the plain-object counter holds exactly the intended tally, as numbers. |
| ObjectTally.ConstructorVoteIsMiscounted | js/file01.js:150-154 | One vote for `constructor` gives an intended count of 1. The plain-object counter instead holds a string, in V8 `function Object() { [native code] }1`. |
| ObjectTally.ProtoVoteIsDropped | js/file01.js:150-154 | One vote for `__proto__` gives an intended count of 1. The plain-object counter stays empty. |

## Left out

- Tally.Aggregate: this is the corrected counter, not the page's plain-object counter. The two agree unless a vote names an `Object.prototype` member (`constructor`, `toString`, `__proto__`, ...); there the page stores a string or drops the id. `ObjectTally` models the page's counter and the "Findings" rows exhibit both cases.
- Results.DisplayVotes: the table is built from the corrected counter `Tally.Aggregate`. For a vote that names an `Object.prototype` member, the page shows a string count or no row where this view shows the number of votes; see `ObjectTally` and "Findings".
- Results.DisplayVotes: the order of table rows is an input. The engine enumerates an object's integer-like keys in ascending order before other keys in insertion order; the model accepts any enumeration of the tally's keys instead of that exact rule.
- Products.RenderProducts: after a failed fetch, the container's previous content is not modelled. The view only says it is left unchanged and that the error is logged.
- Products.RenderProducts: a product without a `title` makes the length test of js/file01.js:55 throw after the container was cleared (line 32) and the earlier cards were added (line 60). The `.catch` of lines 68-69 only logs, so the page keeps that partial card list. The model takes every product to have a title and does not represent the partial list.
- The fetch helpers `fetchProducts` and `fetchCategories` and the vote store's `saveVote` and `getVotes` are network I/O in files outside this model. Their results are inputs.
- DOM access is not modelled: element lookup, `innerHTML` writes, `classList`, event listeners, `window.open`, `alert`, `console.error`. This covers `showToast`, `showVideo` and the vote form handler `enableForm`.
- Async sequencing and the exception path that writes `<p>Error al cargar los votos</p>` are not modelled: they are side effects of a thrown error, not a data transform.
- XML traversal with `getElementsByTagName` is not modelled. Categories arrive already parsed as (id, name) pairs. So a `category` element without an `id` or `name` child is not modelled; that case throws midway through the loop.
- Categories.RenderCategories: any exception in `renderCategories` shows the alert `Error al cargar categorías: ` followed by the error's message (js/file01.js:105-106), a text different from `LoadError`. A rejected fetch raises it. A `category` element without an `id` or `name` child raises it too, and then the prompt and the earlier options are already in the drop-down. The model covers only a fetch that resolves, with categories already parsed, so neither alert text nor partial drop-down is represented.
- The markup and CSS classes of the card and table templates are not modelled, and neither is the `replaceAll` placeholder substitution. Cards and rows are typed records of the substituted values. HTML escaping is likewise absent from the source and from the model.
- `Object.values(votes)` over a keyed store result is taken as a sequence of vote records.
- Numbers: counts are unbounded integers. JavaScript numbers represent them exactly up to 2^53. The price is carried as the text it is substituted as.
- Products.ShownTitle: the model covers only titles made of Basic Multilingual Plane characters, one character per UTF-16 code unit. For a title with a character outside that plane (an emoji, say), JavaScript's `length` counts two code units for it, and `substring(0, 20)` can keep only the first half of the pair; neither is represented, because a character here cannot be half of a surrogate pair.
- The repository's second page file omits the tally and is not part of this model.

## Findings

| source | as written | input that shows it | evidently intended | confidence | as-written member | corrected member |
|---|---|---|---|---|---|---|
| js/file01.js:150-153 | The counter is a plain object literal, so the lookup before the fallback to 0 reads an inherited member for ids such as `constructor`, and `+ 1` then concatenates strings | one vote with productId `constructor`: in V8 the row shows `function Object() { [native code] }1` instead of 1 (other engines print the native function over several lines; the count is a string in all of them) | a counter with no inherited keys, giving `constructor` the count 1 | medium, not executed | ObjectTally.ConstructorVoteIsMiscounted | Tally.Aggregate |
| js/file01.js:150-153 | Assigning a string to `voteCount["__proto__"]` goes to the inherited setter, which ignores it | one vote with productId `__proto__`: the tally is empty, so the counts sum to 0 instead of 1 | the id counted like any other, so the counts sum to the number of votes | medium, not executed | ObjectTally.ProtoVoteIsDropped | Tally.Aggregate |
