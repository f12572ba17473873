/** The process environment, handed to the model as a value instead of being read
    ad hoc, as Go's `os.Getenv` does. */
module Environment {

  /** `os.Getenv`: the value of the variable, or the empty string when it is unset. */
  function Getenv(environ: map<string, string>, key: string): (value: string)
    ensures key in environ ==> value == environ[key]
    ensures key !in environ ==> value == ""
  {
    if key in environ then environ[key] else ""
  }
}
