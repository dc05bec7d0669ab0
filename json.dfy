/** The values a health-check response dictionary holds once it is turned into
    JSON. A `Member` is an enumeration member stored as itself rather than as
    its string (the constructors of both response builders do this). */
module Json {

  datatype Value<E> =
    | Text(text: string)
    | Number(number: int)
    | Array(items: seq<Value<E>>)
    | Object(fields: map<string, Value<E>>)
    | Member(member: E)
}
