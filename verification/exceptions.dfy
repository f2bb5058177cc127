/** The Java exceptions the modelled code can raise. Each one aborts the whole call. */
module Exceptions {

  datatype Exception =
    | WrongAccess             // com.lpvs.exception.WrongAccessException("WrongPathException")
    | NullPointer             // a method called on, or an Integer unboxed from, a null reference
    | NumberFormat            // Integer.parseInt on a string that is not a decimal int
    | StringIndexOutOfBounds  // String.substring with a negative end index
}
