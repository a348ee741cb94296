/** The parts of `RecipeAssistant` (recipe_assist.py:9-73) that are the
    repository's own logic. Calls to the Mistral chat endpoint and to the
    Spoonacular HTTP endpoint are not made here: their outcomes are inputs. */
module RecipeAssistant {
  import opened Wrappers
  import opened PyStr
  import opened RecipeSearch

  /** The assistant as `process_message` uses it: only the Spoonacular key. */
  datatype Assistant = Assistant(spoonacularApiKey: string)

  const BaseUrl: string := "https://api.spoonacular.com/recipes/complexSearch"

  const ClassifierErrorPrefix: string := "Error determining recipe query: "
  const FetchErrorPrefix: string := "Error fetching recipes: "

  ghost predicate StartsWith(s: string, prefix: string) {
    |prefix| <= |s| && s[..|prefix|] == prefix
  }

  /** The normalisation `reply.lower().strip()`: lower-case text with no
      whitespace at either end. */
  function Normalize(reply: string): (r: string)
    ensures |r| <= |reply|
    ensures NoEdgeSpace(r)
    ensures Lower(r) == r
  {
    LowerIdempotent(reply);
    StripKeepsLower(Lower(reply));
    Strip(Lower(reply))
  }

  /** Stripping lower-case text leaves it lower-case. */
  lemma StripKeepsLower(l: string)
    requires Lower(l) == l
    ensures Lower(Strip(l)) == Strip(l)
  {
    var i, j := StripSplit(l);
    LowerSlice(l, i, j);
  }

  /** The classifier's reply means "yes, this is about recipes": it is
      `true`, in any mixture of upper and lower case, with any whitespace
      around it. */
  predicate IsRecipeReply(reply: string)
    ensures IsRecipeReply(reply) <==> exists i, j :: PaddedTrue(reply, i, j)
  {
    TrueReplyShape(reply);
    Normalize(reply) == "true"
  }

  /** Normalising twice is normalising once. */
  lemma NormalizeIdempotent(reply: string)
    ensures Normalize(Normalize(reply)) == Normalize(reply)
  {
    StripIdempotent(Lower(reply));
  }

  /** The reply test gives the same answer on the normalised reply. */
  lemma IsRecipeReplyNormalized(reply: string)
    ensures IsRecipeReply(Normalize(reply)) == IsRecipeReply(reply)
  {
    NormalizeIdempotent(reply);
  }

  /** `reply[i..j]` is `true` in some mixture of cases, with only whitespace
      before and after it. */
  ghost predicate PaddedTrue(reply: string, i: int, j: int) {
    0 <= i <= j <= |reply| && AllSpace(reply[..i]) && AllSpace(reply[j..])
    && Lower(reply[i..j]) == "true"
  }

  lemma {:induction false} PaddedTrueIsRecipe(reply: string, i: int, j: int)
    requires PaddedTrue(reply, i, j)
    ensures Normalize(reply) == "true"
  {
    var a, c, b := reply[..i], reply[i..j], reply[j..];
    assert reply == a + c + b;
    LowerAppend(a + c, b);
    LowerAppend(a, c);
    LowerKeepsSpace(a);
    LowerKeepsSpace(b);
    StripUnique(Lower(a), "true", Lower(b));
  }

  /** Where the lower-cased reply is padded with whitespace, so is the reply. */
  lemma PadsBeneathLower(reply: string, i: nat, j: nat)
    requires i <= j <= |reply|
    requires AllSpace(Lower(reply)[..i]) && AllSpace(Lower(reply)[j..])
    ensures AllSpace(reply[..i]) && AllSpace(reply[j..])
  {
    PrefixBeneathLower(reply, i);
    SuffixBeneathLower(reply, j);
  }

  lemma PrefixBeneathLower(reply: string, i: nat)
    requires i <= |reply| && AllSpace(Lower(reply)[..i])
    ensures AllSpace(reply[..i])
  {
    var l := Lower(reply);
    forall k | 0 <= k < i ensures IsSpace(reply[..i][k]) {
      assert l[..i][k] == l[k];
      assert IsSpace(LowerChar(reply[k]));
    }
  }

  lemma SuffixBeneathLower(reply: string, j: nat)
    requires j <= |reply| && AllSpace(Lower(reply)[j..])
    ensures AllSpace(reply[j..])
  {
    var l := Lower(reply);
    forall k | 0 <= k < |reply| - j ensures IsSpace(reply[j..][k]) {
      assert l[j..][k] == l[j + k];
      assert IsSpace(LowerChar(reply[j + k]));
    }
  }

  lemma {:induction false} RecipeIsPaddedTrue(reply: string) returns (i: int, j: int)
    requires Normalize(reply) == "true"
    ensures PaddedTrue(reply, i, j)
  {
    var i', j' := StripSplit(Lower(reply));
    i, j := i', j';
    LowerSlice(reply, i, j);
    PadsBeneathLower(reply, i, j);
  }

  /** The normalised reply is `"true"` exactly when the reply is `true` in
      some mixture of cases, with only whitespace around it. */
  lemma TrueReplyShape(reply: string)
    ensures Normalize(reply) == "true" <==> exists i, j :: PaddedTrue(reply, i, j)
  {
    if Normalize(reply) == "true" {
      var i, j := RecipeIsPaddedTrue(reply);
    }
    if exists i, j :: PaddedTrue(reply, i, j) {
      var i, j :| PaddedTrue(reply, i, j);
      PaddedTrueIsRecipe(reply, i, j);
    }
  }

  /** `"  TRUE\n"` counts as "yes". */
  lemma UpperCasePaddedExample()
    ensures IsRecipeReply("  TRUE\n")
  {
    var r := "  TRUE\n";
    assert AllSpace(r[..2]) && AllSpace(r[6..]);
    assert Lower(r[2..6]) == "true";
    PaddedTrueIsRecipe(r, 2, 6);
  }

  /** `"true."`, `"yes"` and `""` do not count as "yes". */
  lemma RejectedExamples()
    ensures !IsRecipeReply("true.")
    ensures !IsRecipeReply("yes")
    ensures !IsRecipeReply("")
  {
    RejectedPlain("true.");
    RejectedPlain("yes");
  }

  /** Lower-case text without whitespace at its ends is its own normal form. */
  lemma RejectedPlain(reply: string)
    requires forall i :: 0 <= i < |reply| ==> !IsUpper(reply[i])
    requires NoEdgeSpace(reply)
    ensures Normalize(reply) == reply
  {
    LowerFixes(reply);
    assert [] + reply + [] == reply;
    StripUnique([], reply, []);
  }

  /** `is_recipe_query`: the outcome of the classifier call is either its
      reply text or the message of the exception it raised; the exception is
      re-raised with a prefix. */
  function IsRecipeQuery(call: Result<string, string>): (r: Result<bool, string>)
    ensures r.Success? <==> call.Success?
    ensures r.Success? ==> (r.value <==> Normalize(call.value) == "true")
    ensures r.Failure? ==> StartsWith(r.error, ClassifierErrorPrefix)
                           && r.error[|ClassifierErrorPrefix|..] == call.error
  {
    match call
    case Success(reply) => Success(IsRecipeReply(reply))
    case Failure(e) => Failure(ClassifierErrorPrefix + e)
  }

  /** How a request to the search endpoint can fail: a `RequestException`
      (network failure, non-2xx status), which `search_recipes` wraps, or any
      other exception, which it lets through. */
  datatype FetchError = RequestError(msg: string) | OtherError(msg: string)

  /** `search_recipes(**kwargs)`: the parameters are assembled from the
      dictionary and handed, with the endpoint, to `fetch`, which stands for
      `requests.get`, `raise_for_status` and `response.json()`. */
  function SearchRecipes<R>(assistant: Assistant, kwargs: map<string, Value>,
                            fetch: (string, map<string, Value>) -> Result<R, FetchError>): (r: Result<R, string>)
    ensures var sent := fetch(BaseUrl, SearchParams(assistant.spoonacularApiKey, kwargs));
      && (r.Success? <==> sent.Success?)
      && (r.Success? ==> r.value == sent.value)
      && (sent.Failure? && sent.error.RequestError? ==>
            StartsWith(r.error, FetchErrorPrefix) && r.error[|FetchErrorPrefix|..] == sent.error.msg)
      && (sent.Failure? && sent.error.OtherError? ==> r.error == sent.error.msg)
  {
    match fetch(BaseUrl, SearchParams(assistant.spoonacularApiKey, kwargs))
    case Success(body) => Success(body)
    case Failure(RequestError(e)) => Failure(FetchErrorPrefix + e)
    case Failure(OtherError(e)) => Failure(e)
  }
}
