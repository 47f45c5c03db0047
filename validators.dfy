/**
 * Common validators: the name check of custom attribute titles and object names,
 * the restriction of custom attribute definition updates to the external app, and
 * the guard that keeps non-external users from changing objects of synchronised
 * model types.
 */
module Validators {
  import opened Wrappers
  import opened Strings

  // ---------------------------------------------------------------------------
  // validate_name_correctness

  /** `name.strip().lower()`. */
  function Normalize(name: string): string
  {
    Lower(Strip(name))
  }

  /** `validate_name_correctness`: `None` when the name is accepted, else the ValueError message. */
  function NameError(name: string): (r: Option<string>)
    ensures r.None? <==>
              var n := Normalize(name);
              !Contains(n, "*") && !StartsWith(n, "map:") && !StartsWith(n, "unmap:") && n != "delete"
  {
    var n := Normalize(name);
    if Contains(n, "*") then Some("Name contains unsupported symbol '*'")
    else if StartsWith(n, "map:") then Some("Name should not start with 'map:'")
    else if StartsWith(n, "unmap:") then Some("Name should not start with 'unmap:'")
    else if n == "delete" then Some("'delete' is reserved word and should not be used as an name")
    else None
  }

  lemma LowerIdempotent(s: string)
    ensures Lower(Lower(s)) == Lower(s)
  {
  }

  lemma StripNoEdgeSpace(s: string)
    requires s == [] || (!IsSpace(s[0]) && !IsSpace(s[|s| - 1]))
    ensures Strip(s) == s
  {
  }

  /** A normalised name normalises to itself, so the check sees the same text again. */
  lemma NormalizeIdempotent(name: string)
    ensures Normalize(Normalize(name)) == Normalize(name)
  {
    var s := Strip(name);
    var l := Lower(s);
    assert s == StripRight(StripLeft(name));
    assert s == [] || (!IsSpace(s[0]) && !IsSpace(s[|s| - 1])) by {
      var t := StripLeft(name);
      if s != [] {
        assert s == t[..|s|];
        assert s[0] == t[0];
      }
    }
    assert l == [] || (!IsSpace(l[0]) && !IsSpace(l[|l| - 1]));
    StripNoEdgeSpace(l);
    LowerIdempotent(s);
  }

  /** The check treats a name and its normal form alike. */
  lemma NameErrorOfNormalized(name: string)
    ensures NameError(Normalize(name)) == NameError(name)
  {
    NormalizeIdempotent(name);
  }

  lemma StripLeftPaddedDelete()
    ensures StripLeft(" Delete ") == "Delete "
  {
    var padded, left := " Delete ", "Delete ";
    assert padded[1..] == left;
    assert !IsSpace(left[0]);
  }

  lemma StripRightPaddedDelete()
    ensures StripRight("Delete ") == "Delete"
  {
    var left, word := "Delete ", "Delete";
    assert left[..|left| - 1] == word;
    assert !IsSpace(word[|word| - 1]);
  }

  lemma StripPaddedDelete()
    ensures Strip(" Delete ") == "Delete"
  {
    StripLeftPaddedDelete();
    StripRightPaddedDelete();
  }

  lemma LowerDelete()
    ensures Lower("Delete") == "delete"
  {
    var word := "Delete";
    var r := Lower(word);
    assert LowerChar(word[0]) == 'd';
    assert r[0] == 'd' && r[1..] == word[1..];
  }

  /** " Delete " normalises to the reserved word. */
  lemma PaddedDeleteNormalizes()
    ensures Normalize(" Delete ") == "delete"
  {
    StripPaddedDelete();
    LowerDelete();
  }

  /** The reserved word is rejected whatever its case and surrounding white space. */
  lemma PaddedDeleteRejected()
    ensures NameError(" Delete ").Some?
  {
    PaddedDeleteNormalizes();
  }

  lemma StripLeftNbsp()
    ensures StripLeft("\U{00A0}delete\U{3000}") == "delete\U{3000}"
  {
    var padded, left := "\U{00A0}delete\U{3000}", "delete\U{3000}";
    assert padded[1..] == left;
    assert !IsSpace(left[0]);
  }

  lemma StripRightIdeographic()
    ensures StripRight("delete\U{3000}") == "delete"
  {
    var left, word := "delete\U{3000}", "delete";
    assert left[..|left| - 1] == word;
    assert !IsSpace(word[|word| - 1]);
  }

  /** Unicode white space around the reserved word is stripped too: a no-break space and an ideographic space. */
  lemma UnicodePaddedDeleteRejected()
    ensures NameError("\U{00A0}delete\U{3000}").Some?
  {
    StripLeftNbsp();
    StripRightIdeographic();
    var word := "delete";
    assert Strip("\U{00A0}delete\U{3000}") == word;
    assert Lower(word) == word;
  }

  // ---------------------------------------------------------------------------
  // validate_cad_attrs_update

  /**
   * The request data after `validate_cad_attrs_update`. The check list is built before
   * it is tested, so `src[attr]` raises KeyError first when the request lacks `attr`,
   * and `getattr(init_state, attr)` raises AttributeError when the initial state does.
   */
  function RestrictedUpdate<V(==)>(src: map<string, V>, initState: map<string, V>, attr: string, isExternalApp: bool)
    : Result<map<string, V>>
  {
    if attr !in src then Failure("KeyError: '" + attr + "'")
    else if attr !in initState then Failure("AttributeError: " + attr)
    else if src[attr] != initState[attr] && !isExternalApp then Success(src[attr := initState[attr]])
    else Success(src)
  }

  /**
   * A missing attribute raises, the request's KeyError before the initial state's
   * AttributeError. Otherwise a non-external user cannot change `attr`: it ends equal to
   * the initial value. The external app's data, and every other key, are left as they were.
   */
  lemma RestrictedUpdateSpec<V>(src: map<string, V>, initState: map<string, V>, attr: string, isExternalApp: bool)
    ensures var res := RestrictedUpdate(src, initState, attr, isExternalApp);
            (res.Failure? <==> attr !in src || attr !in initState)
            && (attr !in src ==> res == Failure("KeyError: '" + attr + "'"))
            && (attr in src && attr !in initState ==> res == Failure("AttributeError: " + attr))
    ensures var res := RestrictedUpdate(src, initState, attr, isExternalApp);
            res.Success? ==>
              var r := res.value;
              r.Keys == src.Keys
              && (forall k :: k in src && k != attr ==> r[k] == src[k])
              && (isExternalApp ==> r == src)
              && (!isExternalApp ==> r[attr] == initState[attr])
              && RestrictedUpdate(r, initState, attr, isExternalApp) == res
  {
  }

  /** The request data of one update, which the validator may rewrite in place. */
  class RequestData<V(==)> {
    var src: map<string, V>

    constructor (data: map<string, V>)
      ensures src == data
    {
      src := data;
    }

    /**
     * `validate_cad_attrs_update`: reset `src[attr]` to its initial value for a
     * non-external user; a missing attribute raises and leaves the data as it was.
     */
    method ValidateCadAttrsUpdate(initState: map<string, V>, attr: string, isExternalApp: bool)
      returns (error: Option<string>)
      modifies this
      ensures var res := RestrictedUpdate(old(src), initState, attr, isExternalApp);
              (res.Success? ==> error == None && src == res.value)
              && (res.Failure? ==> error == Some(res.error) && src == old(src))
    {
      if attr !in src {
        return Some("KeyError: '" + attr + "'");
      }
      if attr !in initState {
        return Some("AttributeError: " + attr);
      }
      var shouldPrevent := src[attr] != initState[attr] && !isExternalApp;
      if shouldPrevent {
        src := src[attr := initState[attr]];
      }
      error := None;
    }
  }

  // ---------------------------------------------------------------------------
  // validate_object_type_ggrcq / validate_definition_type_ecad

  /** Who is logged in: nobody, the anonymous user, or a person. */
  datatype CurrentUser = NoUser | AnonymousUser | LoggedIn

  datatype Verdict = Allowed | Forbidden | TypeError

  /**
   * The shared guard of `validate_object_type_ggrcq` and `validate_definition_type_ecad`:
   * `synchronizable` maps the known model names to whether the model is Synchronizable;
   * an unknown name makes `issubclass(None, ...)` raise for a logged-in user.
   */
  function SyncGuard(modelName: string, synchronizable: map<string, bool>, user: CurrentUser, isExternalApp: bool): (v: Verdict)
    ensures v == Forbidden <==>
              user == LoggedIn && modelName in synchronizable && synchronizable[modelName] && !isExternalApp
    ensures v == TypeError <==> user == LoggedIn && modelName !in synchronizable
    ensures user != LoggedIn ==> v == Allowed
  {
    if user != LoggedIn then Allowed
    else if modelName !in synchronizable then TypeError
    else if synchronizable[modelName] && !isExternalApp then Forbidden
    else Allowed
  }

  /** `validate_object_type_ggrcq`, on the target's `object_type`. */
  function ValidateObjectTypeGgrcq(objectType: string, synchronizable: map<string, bool>, user: CurrentUser, isExternalApp: bool): Verdict
  {
    SyncGuard(objectType, synchronizable, user, isExternalApp)
  }

  /** `validate_definition_type_ecad`, on the target's `definition_type`. */
  function ValidateDefinitionTypeEcad(definitionType: string, synchronizable: map<string, bool>, user: CurrentUser, isExternalApp: bool): Verdict
  {
    SyncGuard(definitionType, synchronizable, user, isExternalApp)
  }
}
