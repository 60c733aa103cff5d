# Recipe platform: form editing, submission and search parameters

This project models the client-side logic of a recipe catalogue web
application built on a hosted relational store. There are two parts.

- **The recipe creation form** (`app/recipes/new/RecipeForm.tsx`), in
  `recipe_form.dfy`. Its list editors change the ingredient and instruction
  lists of the form data. They are pure functions from one `RecipeFormData`
  to the next, and each leaves every other part of the record unchanged.
  The submit handler inserts the recipe row, then the `recipe_categories`
  rows, then the `recipe_tags` rows. It stops at the first error, navigates
  home only when every step succeeded, and always resets `loading`. The
  handler is the method `Form.HandleSubmit` on a class that holds the form
  data, the `loading` flag and the log of outward effects. It is proved
  against the function `SubmitEffects`, and the lemmas state what a
  submission does.
- **The search bar** (`app/components/SearchBar.tsx`), in `search_bar.dfy`.
  Its initial criteria are read from the page's query parameters. Its effect
  writes the criteria into a fresh parameter list and picks the route:
  `/` when nothing is set, `/?query` otherwise. The effect is the method
  `SyncUrl`, which fills a `SearchParams` object through successive `Set`
  calls. The lemmas prove which pairs appear, their order, the route choice,
  and the round trip from criteria to query and back.

`recipe_types.dfy` holds the value shapes of `types/recipe.ts`, and
`wrappers.dfy` holds an `Option` type.

The backend is seen only through its answers. `Backend` is a function from
each request (recipe insert, category-link insert, tag-link insert) to a
reply, which is `Ok(id)` or `Err(error)`. What the handler does outside the
component is recorded as a list of effects, in order: requests sent, an
error logged, a route pushed, a refresh. `Form.Send` may only be called
while `loading` is true, so every request provably happens while a
submission is in progress.

## Model

| member | source | states |
|---|---|---|
| `RecipeForm.Form.constructor` | app/recipes/new/RecipeForm.tsx:17-31 | Starts from the initial data if given. Otherwise it starts from the default form: one empty ingredient, one empty step, 30 minutes, 4 servings, medium difficulty, empty image URL, no categories or tags. `loading` starts false. |
| `RecipeForm.ChangeIngredient` | app/recipes/new/RecipeForm.tsx:33-37 | The ingredient list keeps its length. Ingredient `index` takes the edited field's new value and keeps its other two fields. Every other ingredient and every other form field is unchanged. |
| `RecipeForm.ChangeIngredientToSameValue` | app/recipes/new/RecipeForm.tsx:33-37 | Writing back a field's current value leaves the form unchanged. |
| `RecipeForm.AddIngredient` | app/recipes/new/RecipeForm.tsx:39-44 | The list grows by one. The old ingredients stay as a prefix, the new last element is `{name:'', amount:0, unit:''}`, and nothing else changes. |
| `RecipeForm.KeepOtherPositions` | app/recipes/new/RecipeForm.tsx:47 | Filtering by position drops exactly the element at `index` when it lies in the range, and drops nothing otherwise. |
| `RecipeForm.RemoveAt` | app/recipes/new/RecipeForm.tsx:47 | In range, the length drops by one, the elements before `index` are unchanged, and those after it move down one place. An out-of-range index leaves the list unchanged. |
| `RecipeForm.RemoveIngredient` | app/recipes/new/RecipeForm.tsx:46-49 | The ingredient at `index` is dropped and order is kept. An out-of-range index leaves the form unchanged, and no other field changes. |
| `RecipeForm.AddThenRemoveIngredient` | app/recipes/new/RecipeForm.tsx:39-49 | Removing the ingredient just added gives back the original form. |
| `RecipeForm.ChangeInstruction` | app/recipes/new/RecipeForm.tsx:51-55 | Step `index` becomes `value`. The length, every other step and every other field are unchanged. |
| `RecipeForm.AddInstruction` | app/recipes/new/RecipeForm.tsx:57-62 | The list grows by one. The old steps stay as a prefix, the new last step is `''`, and nothing else changes. |
| `RecipeForm.RemoveInstruction` | app/recipes/new/RecipeForm.tsx:64-67 | The step at `index` is dropped and order is kept. An out-of-range index leaves the form unchanged. |
| `RecipeForm.AddThenRemoveInstruction` | app/recipes/new/RecipeForm.tsx:57-67 | Removing the step just added gives back the original form. |
| `RecipeForm.CategoryLinks` | app/recipes/new/RecipeForm.tsx:98-101 | One junction row per selected category id, in the same order. Each row carries that id and the new recipe's id. |
| `RecipeForm.TagLinks` | app/recipes/new/RecipeForm.tsx:112-115 | One junction row per selected tag id, in the same order. Each row carries that id and the new recipe's id. |
| `RecipeForm.SubmitOutcome` | app/recipes/new/RecipeForm.tsx:91-128 | The recipe insert comes first. The submission ends with navigation home and a refresh exactly when every attempted step succeeded. It ends with a logged error exactly when one failed. No error comes before the end, and navigation never happens after a failure. |
| `RecipeForm.SubmitRequests` | app/recipes/new/RecipeForm.tsx:74-119 | The requests sent, in order, are: the recipe insert; the category insert only if the recipe insert succeeded and some category is selected; the tag insert only if every earlier step succeeded and some tag is selected. Both junction inserts use the id returned for the recipe. |
| `RecipeForm.SentRequestsConcat` | app/recipes/new/RecipeForm.tsx:74-119 | The requests in two effect logs one after the other are those of the first log followed by those of the second. |
| `RecipeForm.NoEmptyLinkInsert` | app/recipes/new/RecipeForm.tsx:94-115 | A junction insert that is sent carries one row per selected id, and never an empty batch. |
| `RecipeForm.Form.Send` | app/recipes/new/RecipeForm.tsx:71-119 | A request can only be sent while `loading` is true. The reply is the backend's answer, and the request is appended to the effects. |
| `RecipeForm.Form.HandleSubmit` | app/recipes/new/RecipeForm.tsx:69-129 | The effects grow by exactly `SubmitEffects` of the form data. The form data is unchanged, and `loading` is false at the end whatever the outcome. |
| `SearchBar.Split` | app/components/SearchBar.tsx:17 | `split(',')` gives at least one piece, and no piece holds a comma. Joining the pieces gives back the string. |
| `SearchBar.SplitJoin` | app/components/SearchBar.tsx:17-28 | Splitting the comma join of a non-empty list of comma-free ids gives back the list. |
| `SearchBar.Lookup` | app/components/SearchBar.tsx:15-22 | `get` finds nothing exactly when no pair has the key. |
| `SearchBar.LookupFindsFirst` | app/components/SearchBar.tsx:15-22 | A value found by `get` belongs to the first pair with that key. |
| `SearchBar.SetParam` | app/components/SearchBar.tsx:26-29 | After `set`, `get` on the key finds the new value. |
| `SearchBar.SetParamKeepsOthers` | app/components/SearchBar.tsx:26-29 | `set` on one key does not change what `get` finds for any other key. |
| `SearchBar.SetParamAppends` | app/components/SearchBar.tsx:25-29 | Setting a key that is not yet present appends exactly one pair at the end. |
| `SearchBar.SearchParams.Set` | app/components/SearchBar.tsx:26-29 | The parameter list becomes its `set` update. |
| `SearchBar.IdList` | app/components/SearchBar.tsx:16-21 | A missing list parameter gives `[]`. A present one gives at least one comma-free id, and their comma join is the parameter's value. |
| `SearchBar.InitialState` | app/components/SearchBar.tsx:15-22 | A missing `q` or `difficulty` gives `''`, and a present one gives its value. A missing `categories` or `tags` gives `[]`. A present one gives at least one id, no id holds a comma, and their comma join is its value, which is exactly `split(',')`. |
| `SearchBar.SyncUrl` | app/components/SearchBar.tsx:24-33 | Filling a fresh parameter list field by field and choosing the route gives exactly the route for the criteria's query pairs. |
| `SearchBar.QueryParamsContent` | app/components/SearchBar.tsx:26-29 | `q` is present exactly when the search term is non-empty, and `difficulty` exactly when the difficulty is non-empty. `categories` and `tags` are present exactly when their list is non-empty, with the comma join as value. |
| `SearchBar.QueryLookup` | app/components/SearchBar.tsx:25-29 | `get` on the query finds a key's value exactly when that key's field is non-empty. It finds nothing for any other key. |
| `SearchBar.QueryParamsOrder` | app/components/SearchBar.tsx:25-29 | The only keys are `q`, `categories`, `tags` and `difficulty`, and they appear in that order. |
| `SearchBar.KeysOnce` | app/components/SearchBar.tsx:25-29 | A query in that key order has no key twice. |
| `SearchBar.RouteIsHomeIffNothingSet` | app/components/SearchBar.tsx:31-32 | The route is `/` exactly when all four criteria are empty. Otherwise it is `/?` followed by the query pairs. |
| `SearchBar.RoundTrip` | app/components/SearchBar.tsx:15-29 | If no selected id holds a comma, writing the criteria to a query and reading them back gives the same criteria. Empty selections are included: they write no pair and read back as `[]`. |
| `SearchBar.CommaInIdBreaksRoundTrip` | app/components/SearchBar.tsx:17-27 | A selected id `a,b` reads back as the two ids `a` and `b`, so the round trip needs comma-free ids. |

## Left out

- RecipeForm.ChangeIngredient: requires `index` to be a position of the list. Every caller passes the index of a rendered row (app/recipes/new/RecipeForm.tsx:163-169). Writing past the end of a JavaScript array would create a partial ingredient or a sparse array, and that is not modelled.
- RecipeForm.ChangeInstruction: requires `index` to be a position of the list, for the same reason (app/recipes/new/RecipeForm.tsx:209-215).
- RecipeForm.ChangeIngredient: field and value are one `IngredientEdit`, so a name is always a string and an amount always a number. The source's `string | number` value is not checked against the field.
- Ingredient amounts are reals. The `NaN` that `parseFloat` gives on bad input, and `parseInt` on the cooking time and servings, are not modelled.
- The inline field setters in the form markup are not modelled. These are title, description, cooking time, servings, difficulty, the category and tag multi-selects and the image URL (app/recipes/new/RecipeForm.tsx:141-336). Each replaces one field.
- The store and the network are a `Backend` function from request to reply. A thrown client error counts as an `Err` reply. The `.select().single()` result shape is reduced to the new row's id.
- `console.error` is the `LoggedError` effect. `router.push` and `router.refresh` are the `Pushed` and `Refreshed` effects, and their behaviour is not modelled.
- The button disabled while `loading` is markup and is not modelled.
- RecipeForm.Form.HandleSubmit: a later re-submission, or two submissions in flight, are not modelled.
- SearchBar.SyncUrl: one run of the effect for one state. React re-renders and the `useEffect` dependency list are not modelled.
- Query strings are ordered key/value lists. Percent-encoding, `URLSearchParams.toString`, and parsing the page URL into pairs are library behaviour and are not modelled.
- The search bar's `onChange` handlers replace one criterion each (app/components/SearchBar.tsx:46-103) and are not modelled.
- The unwrapping of fetched junction rows into plain categories and tags is at app/recipes/[id]/page.tsx:20-24. It belongs to the single-recipe page, which is not part of this model.
- No file of the repository builds a search or filter query for the store: app/recipes/page.tsx fetches every recipe without a filter (lines 6-9), and app/page.tsx does not fetch at all, so there is nothing of that kind to model.
- `app/recipes/new/page.tsx` is a separate, simpler form: one insert, then navigation. It is not part of this model, and neither are the other pages, layouts or configuration.
- Category, Tag and Recipe records from `types/recipe.ts` are not declared. The modelled code uses only their ids.
