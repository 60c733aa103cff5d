/**
 * The recipe creation form (app/recipes/new/RecipeForm.tsx): the list editors
 * that turn one `formData` into the next, the junction rows built for the
 * selected categories and tags, and the submission sequence.
 *
 * The editors are pure record-to-record functions, as in the source, where
 * each one builds a new `formData` and hands it to the state setter. The
 * submission handler changes the component's state step by step and is the
 * method `Form.HandleSubmit`, proved against the function `SubmitEffects`.
 */
module RecipeForm {
  import opened Wrappers
  import opened RecipeTypes

  // ---------------------------------------------------------------------------
  // Default state

  /** The ingredient row that "add ingredient" appends and the default form starts with. */
  function EmptyIngredient(): Ingredient {
    Ingredient("", 0.0, "")
  }

  /** The form shown when no initial data is given. */
  function DefaultFormData(): RecipeFormData {
    RecipeFormData(
      title := "",
      description := "",
      ingredients := [EmptyIngredient()],
      instructions := [""],
      cookingTime := 30,
      servings := 4,
      difficulty := Medium,
      imageUrl := Some(""),
      categoryIds := [],
      tagIds := [])
  }

  // ---------------------------------------------------------------------------
  // Removing by position

  /**
   * `s.filter((_, i) => i !== index)` where `offset` is the position of `s[0]`
   * in the array being filtered: keeps every element whose position differs
   * from `index`.
   */
  function KeepOtherPositions<T>(s: seq<T>, index: int, offset: int): (r: seq<T>)
    ensures offset <= index < offset + |s| ==>
              r == s[..index - offset] + s[index - offset + 1..]
    ensures !(offset <= index < offset + |s|) ==> r == s
    decreases |s|
  {
    if s == [] then []
    else
      var rest := KeepOtherPositions(s[1..], index, offset + 1);
      if offset == index then rest else [s[0]] + rest
  }

  /** The array with exactly the element at `index` dropped; unchanged when `index` is not a position of it. */
  function RemoveAt<T>(s: seq<T>, index: int): (r: seq<T>)
    ensures 0 <= index < |s| ==> |r| == |s| - 1
    ensures 0 <= index < |s| ==> forall j :: 0 <= j < index ==> r[j] == s[j]
    ensures 0 <= index < |s| ==> forall j :: index <= j < |r| ==> r[j] == s[j + 1]
    ensures !(0 <= index < |s|) ==> r == s
  {
    KeepOtherPositions(s, index, 0)
  }

  // ---------------------------------------------------------------------------
  // Ingredient editors

  /** The `field` and `value` arguments of the ingredient change handler. */
  datatype IngredientEdit = SetName(name: string) | SetAmount(amount: real) | SetUnit(unit: string)

  /** `{ ...ingredient, [field]: value }` */
  function WithEdit(ingredient: Ingredient, edit: IngredientEdit): Ingredient {
    match edit
    case SetName(n) => ingredient.(name := n)
    case SetAmount(a) => ingredient.(amount := a)
    case SetUnit(u) => ingredient.(unit := u)
  }

  /**
   * handleIngredientChange: one field of one ingredient takes a new value;
   * every other ingredient, every other field of that ingredient and every
   * other part of the form stay as they were.
   */
  function ChangeIngredient(f: RecipeFormData, index: nat, edit: IngredientEdit): (r: RecipeFormData)
    requires index < |f.ingredients|
    ensures r == f.(ingredients := r.ingredients)
    ensures |r.ingredients| == |f.ingredients|
    ensures forall j :: 0 <= j < |f.ingredients| && j != index ==> r.ingredients[j] == f.ingredients[j]
    ensures r.ingredients[index].name == if edit.SetName? then edit.name else f.ingredients[index].name
    ensures r.ingredients[index].amount == if edit.SetAmount? then edit.amount else f.ingredients[index].amount
    ensures r.ingredients[index].unit == if edit.SetUnit? then edit.unit else f.ingredients[index].unit
  {
    f.(ingredients := f.ingredients[index := WithEdit(f.ingredients[index], edit)])
  }

  /** addIngredient: the old ingredients stay as a prefix and one empty ingredient follows them. */
  function AddIngredient(f: RecipeFormData): (r: RecipeFormData)
    ensures r == f.(ingredients := r.ingredients)
    ensures |r.ingredients| == |f.ingredients| + 1
    ensures r.ingredients[..|f.ingredients|] == f.ingredients
    ensures r.ingredients[|f.ingredients|] == Ingredient("", 0.0, "")
  {
    f.(ingredients := f.ingredients + [EmptyIngredient()])
  }

  /** removeIngredient: the ingredient at `index` is dropped, in order; an out-of-range index changes nothing. */
  function RemoveIngredient(f: RecipeFormData, index: int): (r: RecipeFormData)
    ensures r == f.(ingredients := r.ingredients)
    ensures 0 <= index < |f.ingredients| ==>
              r.ingredients == f.ingredients[..index] + f.ingredients[index + 1..]
    ensures !(0 <= index < |f.ingredients|) ==> r == f
  {
    f.(ingredients := RemoveAt(f.ingredients, index))
  }

  // ---------------------------------------------------------------------------
  // Instruction editors

  /** handleInstructionChange: step `index` becomes `value`; nothing else changes. */
  function ChangeInstruction(f: RecipeFormData, index: nat, value: string): (r: RecipeFormData)
    requires index < |f.instructions|
    ensures r == f.(instructions := r.instructions)
    ensures |r.instructions| == |f.instructions|
    ensures r.instructions[index] == value
    ensures forall j :: 0 <= j < |f.instructions| && j != index ==> r.instructions[j] == f.instructions[j]
  {
    f.(instructions := f.instructions[index := value])
  }

  /** addInstruction: the old steps stay as a prefix and one empty step follows them. */
  function AddInstruction(f: RecipeFormData): (r: RecipeFormData)
    ensures r == f.(instructions := r.instructions)
    ensures |r.instructions| == |f.instructions| + 1
    ensures r.instructions[..|f.instructions|] == f.instructions
    ensures r.instructions[|f.instructions|] == ""
  {
    f.(instructions := f.instructions + [""])
  }

  /** removeInstruction: the step at `index` is dropped, in order; an out-of-range index changes nothing. */
  function RemoveInstruction(f: RecipeFormData, index: int): (r: RecipeFormData)
    ensures r == f.(instructions := r.instructions)
    ensures 0 <= index < |f.instructions| ==>
              r.instructions == f.instructions[..index] + f.instructions[index + 1..]
    ensures !(0 <= index < |f.instructions|) ==> r == f
  {
    f.(instructions := RemoveAt(f.instructions, index))
  }

  /** Removing the row that "add ingredient" just appended gives back the form as it was. */
  lemma AddThenRemoveIngredient(f: RecipeFormData)
    ensures RemoveIngredient(AddIngredient(f), |f.ingredients|) == f
  {
  }

  /** Removing the step that "add step" just appended gives back the form as it was. */
  lemma AddThenRemoveInstruction(f: RecipeFormData)
    ensures RemoveInstruction(AddInstruction(f), |f.instructions|) == f
  {
  }

  /** Writing back the value a field already has leaves the form unchanged. */
  lemma ChangeIngredientToSameValue(f: RecipeFormData, index: nat)
    requires index < |f.ingredients|
    ensures ChangeIngredient(f, index, SetName(f.ingredients[index].name)) == f
    ensures ChangeIngredient(f, index, SetAmount(f.ingredients[index].amount)) == f
    ensures ChangeIngredient(f, index, SetUnit(f.ingredients[index].unit)) == f
  {
  }

  // ---------------------------------------------------------------------------
  // Rows written to the store

  /** The columns of the `recipes` row inserted on submission. */
  datatype RecipeRow = RecipeRow(
    title: string,
    description: string,
    ingredients: seq<Ingredient>,
    instructions: seq<string>,
    cookingTime: int,
    servings: int,
    difficulty: Difficulty,
    imageUrl: Option<string>)

  /** A `recipe_categories` junction row. */
  datatype CategoryLink = CategoryLink(recipeId: string, categoryId: string)

  /** A `recipe_tags` junction row. */
  datatype TagLink = TagLink(recipeId: string, tagId: string)

  /** The recipe row is the form without its category and tag selections. */
  function RowOf(f: RecipeFormData): RecipeRow {
    RecipeRow(f.title, f.description, f.ingredients, f.instructions,
              f.cookingTime, f.servings, f.difficulty, f.imageUrl)
  }

  /** `category_ids.map(category_id => ({ recipe_id, category_id }))`: one row per id, in order. */
  function CategoryLinks(recipeId: string, categoryIds: seq<string>): (r: seq<CategoryLink>)
    ensures |r| == |categoryIds|
    ensures forall k :: 0 <= k < |r| ==> r[k].recipeId == recipeId && r[k].categoryId == categoryIds[k]
  {
    if categoryIds == [] then []
    else [CategoryLink(recipeId, categoryIds[0])] + CategoryLinks(recipeId, categoryIds[1..])
  }

  /** `tag_ids.map(tag_id => ({ recipe_id, tag_id }))`: one row per id, in order. */
  function TagLinks(recipeId: string, tagIds: seq<string>): (r: seq<TagLink>)
    ensures |r| == |tagIds|
    ensures forall k :: 0 <= k < |r| ==> r[k].recipeId == recipeId && r[k].tagId == tagIds[k]
  {
    if tagIds == [] then []
    else [TagLink(recipeId, tagIds[0])] + TagLinks(recipeId, tagIds[1..])
  }

  // ---------------------------------------------------------------------------
  // Submission

  /** The three inserts the handler may issue. */
  datatype Request =
    | InsertRecipe(row: RecipeRow)
    | InsertCategoryLinks(categoryLinks: seq<CategoryLink>)
    | InsertTagLinks(tagLinks: seq<TagLink>)

  /**
   * What the store answers: the id of the created row, or an error. A junction
   * insert that succeeds returns no row; its `Ok` id is not looked at.
   */
  datatype Reply = Ok(id: string) | Err(error: string)

  /** The store, seen only through the answer it gives to each request. */
  type Backend = Request -> Reply

  /** What the handler does that can be observed from outside the component, in order. */
  datatype Effect =
    | Sent(request: Request)
    | LoggedError(error: string)
    | Pushed(path: string)
    | Refreshed

  /** The route the handler navigates to after a complete submission. */
  const HomePath := "/"

  /** A step that runs only `when` holds: a failing reply ends the sequence with a logged error. */
  function Attempt(when: bool, request: Request, backend: Backend, andThen: seq<Effect>): seq<Effect> {
    if !when then andThen
    else match backend(request)
      case Err(e) => [Sent(request), LoggedError(e)]
      case Ok(_) => [Sent(request)] + andThen
  }

  /** The requests for the junction rows of a recipe created with id `id`. */
  function CategoryRequest(f: RecipeFormData, id: string): Request {
    InsertCategoryLinks(CategoryLinks(id, f.categoryIds))
  }

  function TagRequest(f: RecipeFormData, id: string): Request {
    InsertTagLinks(TagLinks(id, f.tagIds))
  }

  /**
   * Everything one submission of `f` does, given the store's answers: the
   * recipe insert; the category links if any are selected; the tag links if
   * any are selected; then navigation home and a refresh. The first error is
   * logged and ends the sequence.
   */
  function SubmitEffects(f: RecipeFormData, backend: Backend): seq<Effect> {
    var insert := InsertRecipe(RowOf(f));
    match backend(insert)
    case Err(e) => [Sent(insert), LoggedError(e)]
    case Ok(id) =>
      [Sent(insert)]
      + Attempt(|f.categoryIds| > 0, CategoryRequest(f, id), backend,
          Attempt(|f.tagIds| > 0, TagRequest(f, id), backend,
            [Pushed(HomePath), Refreshed]))
  }

  /** Every attempted step of the submission succeeded. */
  predicate AllStepsSucceed(f: RecipeFormData, backend: Backend) {
    match backend(InsertRecipe(RowOf(f)))
    case Err(_) => false
    case Ok(id) =>
      && (|f.categoryIds| > 0 ==> backend(CategoryRequest(f, id)).Ok?)
      && (|f.tagIds| > 0 ==> backend(TagRequest(f, id)).Ok?)
  }

  /** The submission ended by going home and refreshing the listing. */
  predicate Navigated(effects: seq<Effect>) {
    |effects| >= 2 && effects[|effects| - 2..] == [Pushed(HomePath), Refreshed]
  }

  /** The submission ended by logging an error. */
  predicate Failed(effects: seq<Effect>) {
    |effects| >= 1 && effects[|effects| - 1].LoggedError?
  }

  /** How a submission ends: navigation home and a refresh, or one logged error. */
  predicate IsEnding(ending: seq<Effect>) {
    ending == [Pushed(HomePath), Refreshed] || (|ending| == 1 && ending[0].LoggedError?)
  }

  /**
   * The effects of a submission split into the recipe insert, the further
   * requests sent, and the ending; the ending is navigation exactly when every
   * attempted step succeeded.
   */
  lemma SubmitLeaves(f: RecipeFormData, backend: Backend) returns (sent: seq<Request>, ending: seq<Effect>)
    ensures SubmitEffects(f, backend) == [Sent(InsertRecipe(RowOf(f)))] + SentAll(sent) + ending
    ensures IsEnding(ending)
    ensures ending == [Pushed(HomePath), Refreshed] <==> AllStepsSucceed(f, backend)
  {
    var insert := InsertRecipe(RowOf(f));
    match backend(insert)
    case Err(e) =>
      sent, ending := [], [LoggedError(e)];
    case Ok(id) =>
      var tail := [Pushed(HomePath), Refreshed];
      var catReq, tagReq := CategoryRequest(f, id), TagRequest(f, id);
      var cats := |f.categoryIds| > 0;
      var tags := |f.tagIds| > 0;
      var catsSent := if cats then [catReq] else [];
      assert SentAll([catReq]) == [Sent(catReq)];
      assert SentAll(catsSent + [tagReq]) == SentAll(catsSent) + [Sent(tagReq)];
      if cats && backend(catReq).Err? {
        sent, ending := [catReq], [LoggedError(backend(catReq).error)];
      } else if tags && backend(tagReq).Err? {
        sent, ending := catsSent + [tagReq], [LoggedError(backend(tagReq).error)];
      } else if tags {
        sent, ending := catsSent + [tagReq], tail;
      } else {
        sent, ending := catsSent, tail;
      }
  }

  /** `Sent` effects for the given requests, in order. */
  function SentAll(requests: seq<Request>): (r: seq<Effect>)
    ensures |r| == |requests|
    ensures forall i :: 0 <= i < |r| ==> r[i] == Sent(requests[i])
  {
    if requests == [] then [] else [Sent(requests[0])] + SentAll(requests[1..])
  }

  /**
   * A submission starts with the recipe insert and either ends with navigation
   * home and a refresh, exactly when every attempted step succeeded, or ends
   * with a logged error, exactly when one did not. Nothing but requests comes
   * before that ending, so an error is the last thing that happens and
   * navigation never follows one.
   */
  lemma SubmitOutcome(f: RecipeFormData, backend: Backend)
    ensures var effects := SubmitEffects(f, backend);
      && |effects| >= 2
      && effects[0] == Sent(InsertRecipe(RowOf(f)))
      && (Navigated(effects) <==> AllStepsSucceed(f, backend))
      && (Failed(effects) <==> !AllStepsSucceed(f, backend))
      && (forall i :: 0 <= i < |effects| - 1 ==> !effects[i].LoggedError?)
      && (forall i :: 0 <= i < |effects| ==> effects[i].Pushed? ==> AllStepsSucceed(f, backend))
  {
    var sent, ending := SubmitLeaves(f, backend);
    EndingOf([Sent(InsertRecipe(RowOf(f)))] + SentAll(sent), ending);
  }

  /** Only requests come before the ending of a submission. */
  lemma EndingOf(requests: seq<Effect>, ending: seq<Effect>)
    requires forall i :: 0 <= i < |requests| ==> requests[i].Sent?
    requires IsEnding(ending)
    ensures var effects := requests + ending;
      && (Navigated(effects) <==> ending == [Pushed(HomePath), Refreshed])
      && (Failed(effects) <==> ending != [Pushed(HomePath), Refreshed])
      && (forall i :: 0 <= i < |effects| - 1 ==> !effects[i].LoggedError?)
      && (forall i :: 0 <= i < |effects| ==> effects[i].Pushed? ==> ending == [Pushed(HomePath), Refreshed])
  {
    var effects := requests + ending;
    if ending != [Pushed(HomePath), Refreshed] && |effects| >= 2 {
      assert effects[|effects| - 1] == ending[0];
      assert effects[|effects| - 2..][1] == ending[0];
    }
  }

  /** The requests a submission sends, in order. */
  function SentRequests(effects: seq<Effect>): seq<Request> {
    if effects == [] then []
    else if effects[0].Sent? then [effects[0].request] + SentRequests(effects[1..])
    else SentRequests(effects[1..])
  }

  /** The requests of two effect logs one after the other are those of the first, then those of the second. */
  lemma {:induction false} SentRequestsConcat(a: seq<Effect>, b: seq<Effect>)
    ensures SentRequests(a + b) == SentRequests(a) + SentRequests(b)
  {
    if a == [] {
      assert a + b == b;
    } else {
      assert (a + b)[1..] == a[1..] + b;
      SentRequestsConcat(a[1..], b);
    }
  }

  /**
   * The requests of a submission: the recipe insert first; the category insert
   * only when the recipe insert succeeded and some category is selected; the
   * tag insert only when every earlier step succeeded and some tag is selected.
   * Each junction insert carries the id the store gave the new recipe.
   */
  lemma SubmitRequests(f: RecipeFormData, backend: Backend)
    ensures var insert := InsertRecipe(RowOf(f));
      SentRequests(SubmitEffects(f, backend)) ==
        match backend(insert)
        case Err(_) => [insert]
        case Ok(id) =>
          var categoriesFailed := |f.categoryIds| > 0 && backend(CategoryRequest(f, id)).Err?;
          [insert]
          + (if |f.categoryIds| > 0 then [CategoryRequest(f, id)] else [])
          + (if !categoriesFailed && |f.tagIds| > 0 then [TagRequest(f, id)] else [])
  {
    var insert := InsertRecipe(RowOf(f));
    match backend(insert)
    case Err(e) =>
      assert SentRequests([LoggedError(e)]) == [];
    case Ok(id) =>
      var tail := [Pushed(HomePath), Refreshed];
      assert SentRequests(tail) == [] by {
        assert SentRequests([Refreshed]) == [];
      }
      var tags := Attempt(|f.tagIds| > 0, TagRequest(f, id), backend, tail);
      var cats := Attempt(|f.categoryIds| > 0, CategoryRequest(f, id), backend, tags);
      SentRequestsAttempt(|f.tagIds| > 0, TagRequest(f, id), backend, tail);
      SentRequestsAttempt(|f.categoryIds| > 0, CategoryRequest(f, id), backend, tags);
      assert SubmitEffects(f, backend) == [Sent(insert)] + cats;
      SentRequestsConcat([Sent(insert)], cats);
  }

  lemma SentRequestsAttempt(when: bool, request: Request, backend: Backend, andThen: seq<Effect>)
    ensures SentRequests(Attempt(when, request, backend, andThen)) ==
      if !when then SentRequests(andThen)
      else if backend(request).Err? then [request]
      else [request] + SentRequests(andThen)
  {
    if when {
      match backend(request)
      case Err(e) =>
        SentRequestsConcat([Sent(request)], [LoggedError(e)]);
      case Ok(_) =>
        SentRequestsConcat([Sent(request)], andThen);
    }
  }

  /** Empty selections are never sent to the store. */
  lemma NoEmptyLinkInsert(f: RecipeFormData, backend: Backend)
    ensures forall r :: r in SentRequests(SubmitEffects(f, backend)) ==>
      (r.InsertCategoryLinks? ==> |r.categoryLinks| == |f.categoryIds| > 0) &&
      (r.InsertTagLinks? ==> |r.tagLinks| == |f.tagIds| > 0)
  {
    SubmitRequests(f, backend);
  }

  // ---------------------------------------------------------------------------
  // The component's state

  /**
   * The state of one rendered form: the data being edited, whether a
   * submission is in progress, and what the component has done to the outside
   * world so far.
   */
  class Form {
    var formData: RecipeFormData
    var loading: bool
    var effects: seq<Effect>

    /** The form starts from the given data, or from the default form, and is not loading. */
    constructor (initialData: Option<RecipeFormData>)
      ensures initialData.Some? ==> formData == initialData.value
      ensures initialData.None? ==>
        && formData.title == "" && formData.description == ""
        && formData.ingredients == [Ingredient("", 0.0, "")]
        && formData.instructions == [""]
        && formData.cookingTime == 30 && formData.servings == 4
        && formData.difficulty == Medium && formData.imageUrl == Some("")
        && formData.categoryIds == [] && formData.tagIds == []
      ensures !loading && effects == []
    {
      formData := initialData.GetOr(DefaultFormData());
      loading := false;
      effects := [];
    }

    /** Issues one request to the store; this is only possible while a submission is in progress. */
    method Send(request: Request, backend: Backend) returns (reply: Reply)
      requires loading
      modifies this`effects
      ensures reply == backend(request)
      ensures effects == old(effects) + [Sent(request)]
    {
      effects := effects + [Sent(request)];
      reply := backend(request);
    }

    /**
     * handleSubmit: `loading` is set, the inserts run in order until one
     * fails, the failure is logged or the router goes home, and `loading` is
     * reset whatever happened. The form data is not touched.
     */
    method HandleSubmit(backend: Backend)
      modifies this
      ensures !loading
      ensures formData == old(formData)
      ensures effects == old(effects) + SubmitEffects(formData, backend)
    {
      var data := formData;
      loading := true;
      var failure: Option<string> := None;
      var insert := InsertRecipe(RowOf(data));
      var reply := Send(insert, backend);
      if reply.Err? {
        failure := Some(reply.error);
      } else {
        var recipeId := reply.id;
        if |data.categoryIds| > 0 {
          var categoryReply := Send(InsertCategoryLinks(CategoryLinks(recipeId, data.categoryIds)), backend);
          if categoryReply.Err? {
            failure := Some(categoryReply.error);
          }
        }
        if failure.None? && |data.tagIds| > 0 {
          var tagReply := Send(InsertTagLinks(TagLinks(recipeId, data.tagIds)), backend);
          if tagReply.Err? {
            failure := Some(tagReply.error);
          }
        }
        if failure.None? {
          effects := effects + [Pushed(HomePath), Refreshed];
        }
      }
      if failure.Some? {
        effects := effects + [LoggedError(failure.value)];
      }
      loading := false;
    }
  }
}
