/**
 * Values held by the scope, and the InstanceProvider capability: an object that
 * answers get() with its current value and accepts a pushed value through update().
 */
module Providers {

  /**
   * A value of some declared type. Java's generic T is replaced by the few shapes the
   * tests use: a Boolean, a String, or null.
   */
  datatype Value = Null | BoolVal(b: bool) | StrVal(s: string)

  /**
   * An InstanceProvider as every provider in the tests implements it: one mutable
   * field that update() overwrites and get() returns.
   */
  class InstanceProvider {
    var value: Value

    constructor (initial: Value)
      ensures Get() == initial
    {
      value := initial;
    }

    method Update(v: Value)
      modifies this
      ensures Get() == v
    {
      value := v;
    }

    function Get(): Value
      reads this
    {
      value
    }
  }
}
