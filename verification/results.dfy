/** Failure-compatible wrappers and the error taxonomy of the configuration builder.
    Every `BuilderException` (and every exception the builder lets escape) becomes a
    `BuildError`; the message text is not modelled. */
module Results {

  /** A value that may be absent; stands for a Java reference that may be null. */
  datatype Option<+T> = None | Some(value: T)

  datatype BuildError =
    | Reused                                  // parse() called a second time
    | NoConfigurationElement                  // the document has no /configuration root
    | UnknownSettings(keys: set<string>)      // settings keys with no setter on Configuration
    | AmbiguousPropertySource                 // <properties> names both a resource and a url
    | PropertySourceUnreadable(location: string)
    | MissingType                             // a type attribute is absent where an instance is needed
    | ClassNotFound(name: string)             // neither an alias nor a loadable class
    | NotInstantiable(cls: string)            // no usable no-argument constructor
    | NotAssignable(cls: string)              // the instance fails the cast to the section's interface
    | UnknownJdbcType(jdbcName: string)
    | NoEnvironmentSpecified
    | MissingEnvironmentId
    | MissingTransactionFactory
    | MissingDataSourceFactory
    | MapperReferenceConflict                 // a mapper gives zero or several of resource/url/class
    | MapperSourceUnreadable(location: string)
    | SectionFailed(cause: BuildError)        // the single wrapping error thrown by parseConfiguration

  /** The outcome of a step that may throw. */
  datatype Result<+T> = Success(value: T) | Failure(error: BuildError) {

    predicate IsFailure() {
      Failure?
    }

    function PropagateFailure<U>(): Result<U>
      requires Failure?
    {
      Failure(error)
    }

    function Extract(): T
      requires Success?
    {
      value
    }
  }

  /** `Properties.getProperty(key)`: the value, or null when the key is absent. */
  function Lookup(m: map<string, string>, key: string): (r: Option<string>)
    ensures r.Some? <==> key in m
    ensures r.Some? ==> r.value == m[key]
  {
    if key in m then Some(m[key]) else None
  }
}
