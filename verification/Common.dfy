/** Optional values and the exceptions of the library. */
module Common {

  datatype Option<+T> = None | Some(value: T)

  datatype Exception =
    | StorageEmptyKey
    | StorageEmptyValue
    | StorageNoData
    | StorageOverwriteNotAllowed
    | StorageIteratorOutOfBounds
    | OrderKeysGoBackwards
    | ListenerHasNoDataToRead
    | AttemptedToAdvanceListenerWithNoDataAvailable
    | StreamDoesNotExist
    | MalformedStorageHead
    | StreamAlreadyListedForCreation
    | StreamAlreadyExists
    | UnrecognizedPolymorphicType

  datatype Result<+T> = Ok(value: T) | Threw(exception: Exception)
}
