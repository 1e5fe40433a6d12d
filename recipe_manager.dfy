/** The recipe book: the recipe form's list editors (ingredients, steps,
    tags), saving and deleting recipes, and the filtered, sorted list view. */
module RecipeManager {
  import opened Common
  import Sorting

  datatype Difficulty = Easy | Medium | Hard

  datatype Ingredient = Ingredient(id: string, name: string, amount: string, unit: string)
  datatype Step = Step(id: string, order: int, instruction: string, time: Option<int>)

  datatype Recipe = Recipe(
    id: string, title: string, description: string, category: string, difficulty: Difficulty,
    cookTime: int, servings: int, ingredients: seq<Ingredient>, steps: seq<Step>, tags: seq<string>,
    notes: string, createdAt: string, updatedAt: string, rating: Option<int>)

  /** The recipe being edited (`formData`). */
  datatype Form = Form(
    title: string, description: string, category: string, difficulty: Difficulty, cookTime: int,
    servings: int, ingredients: seq<Ingredient>, steps: seq<Step>, tags: seq<string>, notes: string,
    rating: Option<int>)

  const EmptyForm := Form("", "", "", Easy, 30, 4, [], [], [], "", Some(5))
  /** The category a recipe saved without one gets. */
  const OtherCategory := "その他"

  // ---------------------------------------------------------------------
  // Ingredients

  datatype IngredientDraft = IngredientDraft(name: string, amount: string, unit: string)
  const EmptyIngredient := IngredientDraft("", "", "")

  /** addIngredient: appended, and the draft cleared, only when both name
      and amount are filled in. */
  function AddIngredient(form: Form, draft: IngredientDraft, id: string): (r: (Form, IngredientDraft))
    ensures draft.name != "" && draft.amount != "" ==>
      r.0 == form.(ingredients := form.ingredients + [Ingredient(id, draft.name, draft.amount, draft.unit)])
      && r.1 == EmptyIngredient
    ensures draft.name == "" || draft.amount == "" ==> r == (form, draft)
  {
    if draft.name != "" && draft.amount != "" then
      (form.(ingredients := form.ingredients + [Ingredient(id, draft.name, draft.amount, draft.unit)]), EmptyIngredient)
    else (form, draft)
  }

  /** removeIngredient: every ingredient with that id goes, the rest stay in order. */
  function RemoveIngredient(form: Form, id: string): (r: Form)
    ensures r == form.(ingredients := r.ingredients)
    ensures forall x :: x in r.ingredients <==> x in form.ingredients && x.id != id
  {
    form.(ingredients := Filter(form.ingredients, (x: Ingredient) => x.id != id))
  }

  // ---------------------------------------------------------------------
  // Steps

  /** The steps are numbered 1..n in list order. */
  predicate Numbered(steps: seq<Step>)
  {
    forall i :: 0 <= i < |steps| ==> steps[i].order == i + 1
  }

  datatype StepDraft = StepDraft(instruction: string, time: int)
  const EmptyStep := StepDraft("", 0)

  /** addStep: a non-empty instruction becomes step number |steps| + 1; a
      time of 0 is stored as no time. */
  function AddStep(form: Form, draft: StepDraft, id: string): (r: (Form, StepDraft))
    ensures draft.instruction == "" ==> r == (form, draft)
    ensures draft.instruction != "" ==>
      r.0 == form.(steps := form.steps + [Step(id, |form.steps| + 1, draft.instruction,
        if draft.time == 0 then None else Some(draft.time))])
      && r.1 == EmptyStep
    ensures Numbered(form.steps) ==> Numbered(r.0.steps)
  {
    if draft.instruction != "" then
      (form.(steps := form.steps + [Step(id, |form.steps| + 1, draft.instruction,
        if draft.time == 0 then None else Some(draft.time))]), EmptyStep)
    else (form, draft)
  }

  /** `.map((step, index) => ({...step, order: index + 1}))`. */
  function Renumber(steps: seq<Step>): (r: seq<Step>)
    ensures |r| == |steps| && Numbered(r)
    ensures forall i :: 0 <= i < |steps| ==> r[i] == steps[i].(order := i + 1)
  {
    seq(|steps|, i requires 0 <= i < |steps| => steps[i].(order := i + 1))
  }

  function KeptSteps(steps: seq<Step>, id: string): seq<Step>
  {
    Filter(steps, (s: Step) => s.id != id)
  }

  /** removeStep: the steps without that id, renumbered 1..n in order. */
  function RemoveStep(form: Form, id: string): (r: Form)
    ensures r == form.(steps := r.steps)
    ensures Numbered(r.steps)
    ensures |r.steps| == |KeptSteps(form.steps, id)|
    ensures forall i :: 0 <= i < |r.steps| ==>
      r.steps[i].id != id && r.steps[i] == KeptSteps(form.steps, id)[i].(order := i + 1)
  {
    var kept := KeptSteps(form.steps, id);
    assert forall i :: 0 <= i < |kept| ==> kept[i] in kept;
    form.(steps := Renumber(kept))
  }

  /** Removing a step that is there shortens the list by at least one. */
  lemma RemoveStepShortens(form: Form, id: string)
    requires exists i :: 0 <= i < |form.steps| && form.steps[i].id == id
    ensures |RemoveStep(form, id).steps| < |form.steps|
  {
    var p := (s: Step) => s.id != id;
    var i :| 0 <= i < |form.steps| && form.steps[i].id == id;
    FilterCount(form.steps, p);
    CountDropsAt(form.steps, p, i);
  }

  lemma {:induction false} CountDropsAt(s: seq<Step>, p: Step -> bool, i: nat)
    requires i < |s| && !p(s[i])
    ensures Count(s, p) < |s|
  {
    if i > 0 {
      CountDropsAt(s[1..], p, i - 1);
    }
  }

  // ---------------------------------------------------------------------
  // Tags

  /** addTag: a non-empty tag not yet present is appended and the tag
      input (`newTag`) is cleared; otherwise both stay as they are. */
  function AddTag(form: Form, newTag: string): (r: (Form, string))
    ensures r.0 == form.(tags := r.0.tags)
    ensures newTag != "" && newTag !in form.tags ==> r.0.tags == form.tags + [newTag] && r.1 == ""
    ensures newTag == "" || newTag in form.tags ==> r == (form, newTag)
  {
    if newTag != "" && newTag !in form.tags then (form.(tags := form.tags + [newTag]), "") else (form, newTag)
  }

  /** removeTag: every copy of the tag goes. */
  function RemoveTag(form: Form, tag: string): (r: Form)
    ensures r == form.(tags := r.tags)
    ensures forall t :: t in r.tags <==> t in form.tags && t != tag
  {
    form.(tags := Filter(form.tags, (t: string) => t != tag))
  }

  /** Both tag editors keep the tag list free of repeats. */
  lemma TagsStayDistinct(form: Form, tag: string)
    requires NoDup(form.tags)
    ensures NoDup(AddTag(form, tag).0.tags)
    ensures NoDup(RemoveTag(form, tag).tags)
  {
    FilterNoDup(form.tags, (t: string) => t != tag);
  }

  lemma {:induction false} FilterNoDup<T>(s: seq<T>, p: T -> bool)
    requires NoDup(s)
    ensures NoDup(Filter(s, p))
  {
    if s != [] {
      assert NoDup(s[1..]) by {
        forall i, j | 0 <= i < j < |s[1..]| ensures s[1..][i] != s[1..][j] {
          assert s[1..][i] == s[i + 1] && s[1..][j] == s[j + 1];
        }
      }
      FilterNoDup(s[1..], p);
      var rest := Filter(s[1..], p);
      assert s[0] !in s[1..] by {
        forall k | 0 <= k < |s[1..]| ensures s[1..][k] != s[0] { assert s[1..][k] == s[k + 1]; }
      }
      assert s[0] !in rest;
      var head: seq<T> := if p(s[0]) then [s[0]] else [];
      forall i, j | 0 <= i < j < |head + rest| ensures (head + rest)[i] != (head + rest)[j] {
        if i < |head| { assert (head + rest)[j] == rest[j - |head|]; assert rest[j - |head|] in rest; }
      }
    }
  }

  // ---------------------------------------------------------------------
  // Saving and deleting

  function OrIfEmpty(s: string, fallback: string): string
  {
    if s != "" then s else fallback
  }

  /** saveRecipe's required fields: a title, an ingredient and a step. */
  predicate Savable(form: Form)
  {
    form.title != "" && |form.ingredients| > 0 && |form.steps| > 0
  }

  /** The recipe saveRecipe builds; an edited recipe keeps its id and
      creation time unless those are empty. */
  function RecipeFrom(form: Form, editing: Option<Recipe>, newId: string, now: string): (r: Recipe)
    ensures r.category == OrIfEmpty(form.category, OtherCategory) && r.updatedAt == now
    ensures editing.Some? && editing.value.id != "" ==> r.id == editing.value.id
    ensures editing.Some? && editing.value.createdAt != "" ==> r.createdAt == editing.value.createdAt
    ensures editing.None? ==> r.id == newId && r.createdAt == now
  {
    Recipe(
      if editing.Some? then OrIfEmpty(editing.value.id, newId) else newId,
      form.title, form.description, OrIfEmpty(form.category, OtherCategory), form.difficulty,
      form.cookTime, form.servings, form.ingredients, form.steps, form.tags, form.notes,
      if editing.Some? then OrIfEmpty(editing.value.createdAt, now) else now,
      now, form.rating)
  }

  /** The page's recipe list and form state. */
  datatype Page = Page(recipes: seq<Recipe>, form: Form, editing: Option<Recipe>, showForm: bool)

  /** saveRecipe: nothing changes without the required fields; otherwise the
      edited recipe is replaced in place, or a new one is appended, and the
      form is reset. */
  function SaveRecipe(page: Page, newId: string, now: string): (r: Page)
    ensures !Savable(page.form) ==> r == page
    ensures Savable(page.form) ==> r.form == EmptyForm && r.editing == None && !r.showForm
    ensures Savable(page.form) && page.editing.None? ==>
      r.recipes == page.recipes + [RecipeFrom(page.form, None, newId, now)]
    ensures Savable(page.form) && page.editing.Some? ==>
      |r.recipes| == |page.recipes|
      && forall i :: 0 <= i < |page.recipes| ==>
        r.recipes[i] == (if page.recipes[i].id == page.editing.value.id
          then RecipeFrom(page.form, page.editing, newId, now) else page.recipes[i])
  {
    if !Savable(page.form) then page
    else
      var recipe := RecipeFrom(page.form, page.editing, newId, now);
      var updated := if page.editing.Some? then
          seq(|page.recipes|, i requires 0 <= i < |page.recipes| =>
            if page.recipes[i].id == page.editing.value.id then recipe else page.recipes[i])
        else page.recipes + [recipe];
      Page(updated, EmptyForm, None, false)
  }

  /** deleteRecipe: once confirmed, exactly the recipes with that id go. */
  function DeleteRecipe(recipes: seq<Recipe>, id: string, confirmed: bool): (r: seq<Recipe>)
    ensures !confirmed ==> r == recipes
    ensures confirmed ==> forall x :: x in r <==> x in recipes && x.id != id
  {
    if confirmed then Filter(recipes, (x: Recipe) => x.id != id) else recipes
  }

  /** Saving a new recipe and then deleting its id removes it again, and
      leaves the other recipes in the list. */
  lemma SaveThenDelete(page: Page, newId: string, now: string)
    requires Savable(page.form) && page.editing.None?
    requires forall x :: x in page.recipes ==> x.id != newId
    ensures DeleteRecipe(SaveRecipe(page, newId, now).recipes, newId, true) == page.recipes
  {
    var p := (x: Recipe) => x.id != newId;
    var recipe := RecipeFrom(page.form, None, newId, now);
    FilterAppend(page.recipes, [recipe], p);
    assert forall i :: 0 <= i < |page.recipes| ==> p(page.recipes[i]) by {
      forall i | 0 <= i < |page.recipes| ensures p(page.recipes[i]) { assert page.recipes[i] in page.recipes; }
    }
    FilterAll(page.recipes, p);
    assert Filter([recipe], p) == [] by { assert [recipe][1..] == []; }
  }

  // ---------------------------------------------------------------------
  // The list view

  datatype SortKey = ByTitle | ByCreatedAt | ByCookTime | ByRating

  /** The search box: title, description or a tag contains the query, after
      the `fold` text folding (toLowerCase) on both sides. */
  predicate MatchesSearch(r: Recipe, query: string, fold: string -> string)
  {
    Contains(fold(r.title), fold(query)) || Contains(fold(r.description), fold(query))
    || exists t :: t in r.tags && Contains(fold(t), fold(query))
  }

  /** `filterCategory === 'all' || recipe.category === filterCategory`, and
      likewise for difficulty (None standing for 'all'). */
  predicate Keeps(r: Recipe, query: string, category: string, difficulty: Option<Difficulty>, fold: string -> string)
  {
    MatchesSearch(r, query, fold)
    && (category == "all" || r.category == category)
    && (difficulty.None? || r.difficulty == difficulty.value)
  }

  /** The comparator as a sort key: `collate` stands for localeCompare on
      titles and `timeOf` for the parsed creation time; a missing rating
      counts as 0. */
  function SortKeyOf(sortBy: SortKey, collate: string -> seq<int>, timeOf: string -> int): Recipe -> seq<int>
  {
    match sortBy
    case ByTitle => (r: Recipe) => collate(r.title)
    case ByCookTime => (r: Recipe) => [r.cookTime]
    case ByRating => (r: Recipe) => [RatingOr0(r)]
    case ByCreatedAt => (r: Recipe) => [timeOf(r.createdAt)]
  }

  /** Rating and creation time sort newest/highest first. */
  function Descending(sortBy: SortKey): bool
  {
    sortBy == ByRating || sortBy == ByCreatedAt
  }

  function FilteredAndSorted(recipes: seq<Recipe>, query: string, category: string,
    difficulty: Option<Difficulty>, sortBy: SortKey, fold: string -> string,
    collate: string -> seq<int>, timeOf: string -> int): (r: seq<Recipe>)
    ensures multiset(r) == multiset(Kept(recipes, query, category, difficulty, fold))
  {
    Sorting.SortBy(Kept(recipes, query, category, difficulty, fold), SortKeyOf(sortBy, collate, timeOf), Descending(sortBy))
  }

  function Kept(recipes: seq<Recipe>, query: string, category: string, difficulty: Option<Difficulty>,
    fold: string -> string): (r: seq<Recipe>)
    ensures forall x :: x in r <==> x in recipes && Keeps(x, query, category, difficulty, fold)
  {
    Filter(recipes, (x: Recipe) => Keeps(x, query, category, difficulty, fold))
  }

  function RatingOr0(r: Recipe): int
  {
    if r.rating.Some? then r.rating.value else 0
  }

  lemma CookTimeAscending(view: seq<Recipe>, collate: string -> seq<int>, timeOf: string -> int)
    requires Sorting.Sorted(view, SortKeyOf(ByCookTime, collate, timeOf), false)
    ensures forall i, j :: 0 <= i < j < |view| ==> view[i].cookTime <= view[j].cookTime
  {
    forall i, j | 0 <= i < j < |view| ensures view[i].cookTime <= view[j].cookTime {
      Sorting.SingletonKey(view[j].cookTime, view[i].cookTime);
    }
  }

  lemma RatingDescending(view: seq<Recipe>, collate: string -> seq<int>, timeOf: string -> int)
    requires Sorting.Sorted(view, SortKeyOf(ByRating, collate, timeOf), true)
    ensures forall i, j :: 0 <= i < j < |view| ==> RatingOr0(view[j]) <= RatingOr0(view[i])
  {
    forall i, j | 0 <= i < j < |view| ensures RatingOr0(view[j]) <= RatingOr0(view[i]) {
      Sorting.SingletonKey(RatingOr0(view[i]), RatingOr0(view[j]));
    }
  }

  /** 'title' sorts by the collation key of the title, ascending. */
  lemma TitleAscending(view: seq<Recipe>, collate: string -> seq<int>, timeOf: string -> int)
    requires Sorting.Sorted(view, SortKeyOf(ByTitle, collate, timeOf), false)
    ensures forall i, j :: 0 <= i < j < |view| ==> !Sorting.LexLt(collate(view[j].title), collate(view[i].title))
  {
    forall i, j | 0 <= i < j < |view| ensures !Sorting.LexLt(collate(view[j].title), collate(view[i].title)) {
      assert !Sorting.Before(SortKeyOf(ByTitle, collate, timeOf), false, view[j], view[i]);
    }
  }

  /** 'createdAt' lists the newest recipe first. */
  lemma CreatedAtDescending(view: seq<Recipe>, collate: string -> seq<int>, timeOf: string -> int)
    requires Sorting.Sorted(view, SortKeyOf(ByCreatedAt, collate, timeOf), true)
    ensures forall i, j :: 0 <= i < j < |view| ==> timeOf(view[j].createdAt) <= timeOf(view[i].createdAt)
  {
    forall i, j | 0 <= i < j < |view| ensures timeOf(view[j].createdAt) <= timeOf(view[i].createdAt) {
      assert !Sorting.Before(SortKeyOf(ByCreatedAt, collate, timeOf), true, view[j], view[i]);
      Sorting.SingletonKey(timeOf(view[i].createdAt), timeOf(view[j].createdAt));
    }
  }

  /** The view is a permutation of the recipes that pass the filters, sorted
      by the chosen key: title by collation ascending, cook time ascending,
      rating descending, creation time newest first. */
  lemma ViewMeaning(recipes: seq<Recipe>, query: string, category: string,
    difficulty: Option<Difficulty>, sortBy: SortKey, fold: string -> string,
    collate: string -> seq<int>, timeOf: string -> int)
    ensures var view := FilteredAndSorted(recipes, query, category, difficulty, sortBy, fold, collate, timeOf);
      multiset(view) == multiset(Kept(recipes, query, category, difficulty, fold))
      && (forall x :: x in view <==> x in recipes && Keeps(x, query, category, difficulty, fold))
      && (sortBy == ByTitle ==>
        forall i, j :: 0 <= i < j < |view| ==> !Sorting.LexLt(collate(view[j].title), collate(view[i].title)))
      && (sortBy == ByCreatedAt ==>
        forall i, j :: 0 <= i < j < |view| ==> timeOf(view[j].createdAt) <= timeOf(view[i].createdAt))
      && (sortBy == ByCookTime ==> forall i, j :: 0 <= i < j < |view| ==> view[i].cookTime <= view[j].cookTime)
      && (sortBy == ByRating ==> forall i, j :: 0 <= i < j < |view| ==> RatingOr0(view[j]) <= RatingOr0(view[i]))
  {
    var kept := Kept(recipes, query, category, difficulty, fold);
    var view := FilteredAndSorted(recipes, query, category, difficulty, sortBy, fold, collate, timeOf);
    Sorting.SortBySorted(kept, SortKeyOf(sortBy, collate, timeOf), Descending(sortBy));
    assert forall x :: x in view <==> x in multiset(view);
    assert forall x :: x in kept <==> x in multiset(kept);
    if sortBy == ByCookTime { CookTimeAscending(view, collate, timeOf); }
    if sortBy == ByRating { RatingDescending(view, collate, timeOf); }
    if sortBy == ByTitle { TitleAscending(view, collate, timeOf); }
    if sortBy == ByCreatedAt { CreatedAtDescending(view, collate, timeOf); }
  }

  /** With both filters at 'all' and an empty query every recipe is shown. */
  lemma NoFilterShowsAll(recipes: seq<Recipe>, sortBy: SortKey, fold: string -> string,
    collate: string -> seq<int>, timeOf: string -> int)
    requires fold("") == ""
    ensures multiset(FilteredAndSorted(recipes, "", "all", None, sortBy, fold, collate, timeOf)) == multiset(recipes)
  {
    forall i | 0 <= i < |recipes| ensures Keeps(recipes[i], "", "all", None, fold) {
      ContainsEmpty(fold(recipes[i].title));
    }
    FilterAll(recipes, (x: Recipe) => Keeps(x, "", "all", None, fold));
  }
}
