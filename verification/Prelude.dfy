/** Small shared datatypes. */
module Prelude {

  datatype Option<+T> = None | Some(value: T) {
    function GetOr(default: T): T {
      if Some? then value else default
    }
  }

  lemma TakeOneMore<T>(items: seq<T>, index: nat)
    requires index < |items|
    ensures items[..index + 1] == items[..index] + [items[index]]
  {
  }

  lemma Associates<T>(a: seq<T>, b: seq<T>, c: seq<T>)
    ensures a + b + c == a + (b + c)
  {
  }

  lemma Adjacent<T>(items: seq<T>, first: nat, second: nat, third: nat)
    requires first <= second <= third <= |items|
    ensures items[first..third] == items[first..second] + items[second..third]
  {
  }
}
