/** A Java reference that may be null. */
module Nullables {

  datatype Nullable<+T> = Null | NonNull(get: T)

}
