/**
 * The onboarding store: a cursor over three fixed slides and a completion flag that is mirrored
 * in the browser's local storage. Local storage is the `storage` field; whether the code runs in
 * the browser and whether storage accepts calls are fixed when the store is made.
 */
module Onboarding {

  datatype Slide = Slide(id: nat, title: string, description: string, image: string)

  /** The slides, in display order. */
  const Slides: seq<Slide> := [
    Slide(1, "Descubre la belleza",
      "Explora un amplio catálogo de profesionales de belleza y servicios cerca de ti.",
      "/images/onboarding/discover.svg"),
    Slide(2, "Reserva fácilmente",
      "Agenda citas con tus profesionales favoritos en pocos pasos.",
      "/images/onboarding/booking.svg"),
    Slide(3, "Servicio a domicilio",
      "Recibe atención profesional en la comodidad de tu hogar.",
      "/images/onboarding/home.svg")
  ]

  /** The local-storage key and the value that marks onboarding as done. */
  const CompletedKey := "onboardingCompleted"
  const CompletedValue := "true"

  class OnboardingStore {
    const slides: seq<Slide>
    var currentSlideIndex: int
    var hasCompletedOnboarding: bool
    /** The browser's local storage, key by key. */
    var storage: map<string, string>
    /** `process.client`: local storage exists only in the browser. */
    const isClient: bool
    /** False when every local-storage call throws (the store then only logs). */
    const storageUsable: bool

    /** The cursor is always on a slide. */
    ghost predicate Valid()
      reads this
    {
      slides == Slides && 0 <= currentSlideIndex < |slides|
    }

    /**
     * A fresh store on the first slide, not completed. The deferred status check the store
     * schedules on the client is `CheckOnboardingStatus`, which the caller runs next.
     */
    constructor (isClient: bool, storageUsable: bool, storage: map<string, string>)
      ensures Valid()
      ensures currentSlideIndex == 0 && !hasCompletedOnboarding
      ensures this.storage == storage
      ensures this.isClient == isClient && this.storageUsable == storageUsable
    {
      slides := Slides;
      currentSlideIndex := 0;
      hasCompletedOnboarding := false;
      this.storage := storage;
      this.isClient := isClient;
      this.storageUsable := storageUsable;
    }

    /** `currentSlide`: the slide under the cursor, whose id is its one-based position. */
    function CurrentSlide(): (s: Slide)
      reads this
      requires Valid()
      ensures s in Slides
      ensures s.id == currentSlideIndex + 1
    {
      slides[currentSlideIndex]
    }

    /** `isLastSlide`: the cursor is on the final slide, so the next step completes onboarding. */
    function IsLastSlide(): (b: bool)
      reads this
      requires Valid()
      ensures b <==> currentSlideIndex + 1 == |Slides|
      ensures b <==> CurrentSlide().id == |Slides|
    {
      currentSlideIndex == |slides| - 1
    }

    /** `completeOnboarding`: the flag is set and, when possible, remembered in storage. */
    method CompleteOnboarding()
      modifies this`hasCompletedOnboarding, this`storage
      ensures hasCompletedOnboarding
      ensures storage == if isClient && storageUsable then old(storage)[CompletedKey := CompletedValue]
                         else old(storage)
    {
      hasCompletedOnboarding := true;
      if isClient && storageUsable {
        storage := storage[CompletedKey := CompletedValue];
      }
    }

    /** `nextSlide`: one slide on, or completion on the last slide. */
    method NextSlide()
      requires Valid()
      modifies this`currentSlideIndex, this`hasCompletedOnboarding, this`storage
      ensures Valid()
      ensures old(currentSlideIndex) < |slides| - 1 ==>
                currentSlideIndex == old(currentSlideIndex) + 1 &&
                hasCompletedOnboarding == old(hasCompletedOnboarding) && storage == old(storage)
      ensures old(currentSlideIndex) == |slides| - 1 ==>
                currentSlideIndex == old(currentSlideIndex) && hasCompletedOnboarding &&
                storage == if isClient && storageUsable then old(storage)[CompletedKey := CompletedValue]
                           else old(storage)
    {
      if currentSlideIndex < |slides| - 1 {
        currentSlideIndex := currentSlideIndex + 1;
      } else {
        CompleteOnboarding();
      }
    }

    /** `previousSlide`: one slide back, except on the first slide. */
    method PreviousSlide()
      requires Valid()
      modifies this`currentSlideIndex
      ensures Valid()
      ensures old(currentSlideIndex) == 0 ==> currentSlideIndex == 0
      ensures old(currentSlideIndex) > 0 ==> currentSlideIndex == old(currentSlideIndex) - 1
    {
      if currentSlideIndex > 0 {
        currentSlideIndex := currentSlideIndex - 1;
      }
    }

    /** `goToSlide`: jump to an index that names a slide; any other index is ignored. */
    method GoToSlide(index: int)
      requires Valid()
      modifies this`currentSlideIndex
      ensures Valid()
      ensures 0 <= index < |slides| ==> currentSlideIndex == index
      ensures !(0 <= index < |slides|) ==> currentSlideIndex == old(currentSlideIndex)
    {
      if index >= 0 && index < |slides| {
        currentSlideIndex := index;
      }
    }

    /** `checkOnboardingStatus`: the flag is read back from storage, when storage can be read. */
    method CheckOnboardingStatus()
      modifies this`hasCompletedOnboarding
      ensures isClient && storageUsable ==>
                (hasCompletedOnboarding <==> CompletedKey in storage && storage[CompletedKey] == CompletedValue)
      ensures !(isClient && storageUsable) ==> hasCompletedOnboarding == old(hasCompletedOnboarding)
    {
      if isClient && storageUsable {
        hasCompletedOnboarding := CompletedKey in storage && storage[CompletedKey] == CompletedValue;
      }
    }
  }

  /** `completeOnboarding` twice in a row leaves what one call leaves. */
  method CompleteOnboardingTwice(store: OnboardingStore)
    modifies store
    ensures store.hasCompletedOnboarding
    ensures store.storage == if store.isClient && store.storageUsable
                             then old(store.storage)[CompletedKey := CompletedValue]
                             else old(store.storage)
    ensures store.currentSlideIndex == old(store.currentSlideIndex)
  {
    store.CompleteOnboarding();
    store.CompleteOnboarding();
  }

  /**
   * Walking through every slide completes onboarding, and a store made later over the same
   * storage reads the completion back.
   */
  method WalkThrough(storage: map<string, string>) returns (finished: bool, remembered: bool)
    ensures finished && remembered
  {
    var store := new OnboardingStore(true, true, storage);
    store.NextSlide();
    store.NextSlide();
    assert !store.hasCompletedOnboarding && store.IsLastSlide();
    store.NextSlide();
    finished := store.hasCompletedOnboarding;
    var later := new OnboardingStore(true, true, store.storage);
    later.CheckOnboardingStatus();
    remembered := later.hasCompletedOnboarding;
  }
}
