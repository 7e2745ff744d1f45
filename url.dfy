/** What the model needs of the WHATWG URL parser (`new URL(text)`). Parsing itself is not
    modelled: every operation that parses takes the parser as a parameter, a partial function
    that yields None where the constructor throws. */
module Url {
  import opened Common

  datatype Url = Url(origin: string, hostname: string, pathname: string)

  type Parser = string -> Option<Url>

}
