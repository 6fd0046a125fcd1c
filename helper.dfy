/** The breed check of helper.py. The list of valid breeds is a given sequence: fetching it is network I/O. */
module Helper {
  import opened Wrappers

  /** validate_breed: raises a 400 error exactly when the breed is not a member of the list and
      otherwise returns without effect. The list is a value, so the check cannot alter it. */
  function ValidateBreed(breed: string, validBreeds: seq<string>): (r: Result<()>)
    ensures r.Err? <==> breed !in validBreeds
    ensures r.Err? ==> r.error == InvalidInput
  {
    if breed in validBreeds then Ok(()) else Err(InvalidInput)
  }

  /** With an empty list of valid breeds every breed is rejected. */
  lemma EmptyListRejectsEveryBreed(breed: string)
    ensures ValidateBreed(breed, []) == Err(InvalidInput)
  {
  }
}
