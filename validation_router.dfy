/** The validation-error handlers of the product-actions view. A failed
    add-to-cart validation names the product type; the component replays
    the attention animation on the section that needs input, by removing
    and re-adding the `animate` class on that section's element. */
module ValidationRouter {
  import opened ProductData

  const AnimateClass: string := "animate"

  /** `classList.remove('animate')` followed by `classList.add('animate')`. */
  function RetriggerAnimation(classes: set<string>): (r: set<string>)
    ensures AnimateClass in r
    ensures forall c :: c != AnimateClass ==> (c in r <==> c in classes)
  {
    (classes - {AnimateClass}) + {AnimateClass}
  }

  /** Replaying the animation again leaves the same class set. */
  lemma RetriggerIdempotent(classes: set<string>)
    ensures RetriggerAnimation(RetriggerAnimation(classes)) == RetriggerAnimation(classes)
  {
  }

  /** A DOM element, reduced to its class list. */
  class Element {
    var classes: set<string>

    constructor (classes: set<string>)
      ensures this.classes == classes
    {
      this.classes := classes;
    }
  }

  /** A React ref: `current` is the mounted element, or null. */
  class Ref {
    var current: Element?

    constructor (current: Element?)
      ensures this.current == current
    {
      this.current := current;
    }
  }

  /** What a handler call does. `ThrowsTypeError` is the call on a ref whose
      section is not mounted: `current.scrollIntoView` fails before any class
      changes. */
  datatype Outcome = Animated | Ignored | ThrowsTypeError

  /** The element a ref points at, as a frame. */
  function Target(ref: Ref?): set<object>
    reads ref
  {
    if ref != null && ref.current != null then {ref.current} else {}
  }

  class ProductActions {
    const configurableOptionsRef: Ref
    const groupedProductsRef: Ref

    /** The two refs are distinct objects, and when both sections are
        mounted they are distinct elements. */
    ghost predicate Valid()
      reads this, configurableOptionsRef, groupedProductsRef
    {
      && configurableOptionsRef != groupedProductsRef
      && (configurableOptionsRef.current != null && groupedProductsRef.current != null ==>
            configurableOptionsRef.current != groupedProductsRef.current)
    }

    /** The component with its two refs as React has attached them. */
    constructor (configurableElement: Element?, groupedElement: Element?)
      requires configurableElement != null && groupedElement != null ==> configurableElement != groupedElement
      ensures Valid()
      ensures fresh(configurableOptionsRef) && fresh(groupedProductsRef)
      ensures configurableOptionsRef.current == configurableElement
      ensures groupedProductsRef.current == groupedElement
    {
      configurableOptionsRef := new Ref(configurableElement);
      groupedProductsRef := new Ref(groupedElement);
    }

    /** `onProductError(ref)`: no ref does nothing; an unmounted section
        throws; otherwise the element's classes get the animation replayed. */
    method OnProductError(ref: Ref?) returns (outcome: Outcome)
      modifies Target(ref)
      ensures ref == null ==> outcome == Ignored
      ensures ref != null && ref.current == null ==> outcome == ThrowsTypeError
      ensures ref != null && ref.current != null ==>
                outcome == Animated && ref.current.classes == RetriggerAnimation(old(ref.current.classes))
    {
      if ref == null {
        return Ignored;
      }
      var current := ref.current;
      if current == null {
        return ThrowsTypeError;
      }
      current.classes := current.classes - {AnimateClass};
      current.classes := current.classes + {AnimateClass};
      outcome := Animated;
    }

    /** `onConfigurableProductError`, bound to the configurable options ref. */
    method OnConfigurableProductError() returns (outcome: Outcome)
      modifies Target(configurableOptionsRef)
      ensures configurableOptionsRef.current == null ==> outcome == ThrowsTypeError
      ensures configurableOptionsRef.current != null ==>
                outcome == Animated
                && configurableOptionsRef.current.classes == RetriggerAnimation(old(configurableOptionsRef.current.classes))
    {
      outcome := OnProductError(configurableOptionsRef);
    }

    /** `onGroupedProductError`, bound to the grouped products ref. */
    method OnGroupedProductError() returns (outcome: Outcome)
      modifies Target(groupedProductsRef)
      ensures groupedProductsRef.current == null ==> outcome == ThrowsTypeError
      ensures groupedProductsRef.current != null ==>
                outcome == Animated
                && groupedProductsRef.current.classes == RetriggerAnimation(old(groupedProductsRef.current.classes))
    {
      outcome := OnProductError(groupedProductsRef);
    }

    /** `onProductValidationError(type)`: a configurable failure touches only
        the configurable element, a grouped failure only the grouped element,
        and any other type nothing. */
    method OnProductValidationError(t: ProductType) returns (outcome: Outcome)
      requires Valid()
      modifies Target(configurableOptionsRef), Target(groupedProductsRef)
      ensures Valid()
      ensures t == Configurable ==>
                && (configurableOptionsRef.current == null ==> outcome == ThrowsTypeError)
                && (configurableOptionsRef.current != null ==>
                      outcome == Animated
                      && configurableOptionsRef.current.classes
                         == RetriggerAnimation(old(configurableOptionsRef.current.classes)))
                && (groupedProductsRef.current != null ==>
                      groupedProductsRef.current.classes == old(groupedProductsRef.current.classes))
      ensures t == Grouped ==>
                && (groupedProductsRef.current == null ==> outcome == ThrowsTypeError)
                && (groupedProductsRef.current != null ==>
                      outcome == Animated
                      && groupedProductsRef.current.classes
                         == RetriggerAnimation(old(groupedProductsRef.current.classes)))
                && (configurableOptionsRef.current != null ==>
                      configurableOptionsRef.current.classes == old(configurableOptionsRef.current.classes))
      ensures t != Configurable && t != Grouped ==>
                outcome == Ignored
                && unchanged(Target(configurableOptionsRef)) && unchanged(Target(groupedProductsRef))
    {
      match t
      case Configurable =>
        outcome := OnConfigurableProductError();
      case Grouped =>
        outcome := OnGroupedProductError();
      case _ =>
        outcome := Ignored;
    }

    /** Two configurable failures in a row both replay the animation, leave
        the same classes as one, and never touch the grouped element. */
    method RepeatedConfigurableFailure() returns (first: Outcome, second: Outcome)
      requires Valid()
      requires configurableOptionsRef.current != null
      modifies Target(configurableOptionsRef), Target(groupedProductsRef)
      ensures Valid()
      ensures first == Animated && second == Animated
      ensures configurableOptionsRef.current.classes == RetriggerAnimation(old(configurableOptionsRef.current.classes))
      ensures groupedProductsRef.current != null ==>
                groupedProductsRef.current.classes == old(groupedProductsRef.current.classes)
    {
      first := OnProductValidationError(Configurable);
      second := OnProductValidationError(Configurable);
      RetriggerIdempotent(old(configurableOptionsRef.current.classes));
    }
  }
}
