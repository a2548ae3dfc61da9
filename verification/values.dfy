/**
 The Foundation objects that travel as answers and expected answers (`Any?` / `NSObject`).
 Numbers stand for `NSNumber` (a Swift `Bool` bridges to 0 or 1), text for `NSString`,
 and lists for `NSArray`; equality is the structural `isEqual:` of those classes.
 */
module Values {

  datatype Value =
    | Num(n: int)
    | Text(s: string)
    | List(items: seq<Value>)

  /** `false` as an `NSNumber` */
  const False: Value := Num(0)

  /** `true` as an `NSNumber` */
  const True: Value := Num(1)
}
