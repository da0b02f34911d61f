/** The argument check the request builders share. */
module CollinsRequest {
  import opened Wrappers

  /** The exception validateNotEmpty throws, naming the offending argument. */
  datatype ValidationError = EmptyArgument(name: string)

  /** validateNotEmpty: a null (None) or empty argument is rejected; otherwise it is passed on unchanged. */
  function ValidateNotEmpty(value: Option<string>, name: string): (r: Result<string, ValidationError>)
    ensures r.Success? <==> value.Some? && value.value != []
    ensures r.Success? ==> r.value == value.value
    ensures r.Failure? ==> r.error == EmptyArgument(name)
  {
    match value
    case Some(s) => if s != [] then Success(s) else Failure(EmptyArgument(name))
    case None => Failure(EmptyArgument(name))
  }
}
