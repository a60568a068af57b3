/** The food-picking part of the camera panel
    (src/components/CameraFoodDetection.tsx): which detector classes count as
    food, which one is shown, and what confirming it does to the panel. The
    detector's output is the sequence of its predicted class names, in the
    order the detector returns them; the camera stream, the canvas and the
    model itself are not modelled. */
module CameraFoodDetection {
  import opened Common
  import opened NutrientTotals
  import opened App

  /** The nine class names the panel accepts as food. */
  const FoodClasses: seq<string> :=
    ["banana", "apple", "orange", "carrot", "broccoli", "sandwich", "pizza", "donut", "cake"]

  const UploadNoFoodAlert := "No food items detected in the image. Please try another image."
  const CaptureNoFoodAlert := "No food items detected. Please try again."

  /** `whitelist.includes(c.toLowerCase())`. */
  predicate Listed(c: string, whitelist: seq<string>)
  {
    Lower(c) in whitelist
  }

  /** A prediction is kept when its class, lower-cased, is one of the nine. */
  predicate IsFoodClass(c: string)
  {
    Listed(c, FoodClasses)
  }

  /** `predictions.filter(...)` against `whitelist`: the listed predictions,
      in detector order and with their casing as the detector gave it. */
  function KeepListed(predictions: seq<string>, whitelist: seq<string>): (r: seq<string>)
    ensures |r| <= |predictions|
  {
    if predictions == [] then []
    else (if Listed(predictions[0], whitelist) then [predictions[0]] else []) + KeepListed(predictions[1..], whitelist)
  }

  /** The `foodItems` of both detection paths. */
  function FoodItems(predictions: seq<string>): (r: seq<string>)
    ensures |r| <= |predictions|
  {
    KeepListed(predictions, FoodClasses)
  }

  /** The filter keeps exactly the listed predictions. */
  lemma {:induction false} KeepListedMembers(predictions: seq<string>, whitelist: seq<string>)
    ensures forall c :: c in KeepListed(predictions, whitelist) <==> c in predictions && Listed(c, whitelist)
  {
    if predictions != [] {
      KeepListedMembers(predictions[1..], whitelist);
      assert predictions == [predictions[0]] + predictions[1..];
    }
  }

  /** The filter is empty exactly when no prediction is listed. */
  lemma {:induction false} KeepListedEmpty(predictions: seq<string>, whitelist: seq<string>)
    ensures KeepListed(predictions, whitelist) == []
        <==> forall i :: 0 <= i < |predictions| ==> !Listed(predictions[i], whitelist)
  {
    if predictions != [] {
      var rest := predictions[1..];
      KeepListedEmpty(rest, whitelist);
      assert forall i :: 0 < i < |predictions| ==> predictions[i] == rest[i - 1];
    }
  }

  /** A non-empty filter starts with the first listed prediction. */
  lemma {:induction false} KeepListedHead(predictions: seq<string>, whitelist: seq<string>)
    requires KeepListed(predictions, whitelist) != []
    ensures
      exists k ::
        && 0 <= k < |predictions|
        && predictions[k] == KeepListed(predictions, whitelist)[0]
        && Listed(predictions[k], whitelist)
        && forall i :: 0 <= i < k ==> !Listed(predictions[i], whitelist)
  {
    var rest := predictions[1..];
    if !Listed(predictions[0], whitelist) {
      assert KeepListed(predictions, whitelist) == KeepListed(rest, whitelist);
      KeepListedHead(rest, whitelist);
      var k :| && 0 <= k < |rest| && rest[k] == KeepListed(rest, whitelist)[0]
               && Listed(rest[k], whitelist) && forall i :: 0 <= i < k ==> !Listed(rest[i], whitelist);
      assert forall i :: 0 < i <= k + 1 ==> predictions[i] == rest[i - 1];
      assert predictions[k + 1] == KeepListed(predictions, whitelist)[0];
    } else {
      assert KeepListed(predictions, whitelist)[0] == predictions[0];
    }
  }

  /** The filter distributes over concatenation. */
  lemma {:induction false} KeepListedConcat(p: seq<string>, q: seq<string>, whitelist: seq<string>)
    ensures KeepListed(p + q, whitelist) == KeepListed(p, whitelist) + KeepListed(q, whitelist)
  {
    if p != [] {
      assert (p + q)[1..] == p[1..] + q;
      KeepListedConcat(p[1..], q, whitelist);
    } else {
      assert p + q == q;
    }
  }

  /** `foodItems[0].class` when the filter is non-empty: the first food
      prediction in detector order, casing kept; `None` when there is none. */
  function SelectFood(predictions: seq<string>): (r: Option<string>)
    ensures r.None? <==> forall i :: 0 <= i < |predictions| ==> !IsFoodClass(predictions[i])
    ensures r.Some? ==> IsFoodClass(r.value)
    ensures r.Some? ==>
      exists k ::
        && 0 <= k < |predictions| && predictions[k] == r.value
        && forall i :: 0 <= i < k ==> !IsFoodClass(predictions[i])
  {
    KeepListedEmpty(predictions, FoodClasses);
    var foodItems := FoodItems(predictions);
    if |foodItems| > 0 then
      KeepListedHead(predictions, FoodClasses);
      Some(foodItems[0])
    else
      None
  }

  /** Predictions in front that are not food do not affect the choice, and a
      food prediction in front wins over anything after it. */
  lemma {:induction false} SelectFoodConcat(p: seq<string>, q: seq<string>)
    ensures SelectFood(p + q) == if SelectFood(p).Some? then SelectFood(p) else SelectFood(q)
  {
    KeepListedConcat(p, q, FoodClasses);
  }

  /** A pick shown in the panel is never the empty string, so the truthiness
      test of `handleConfirmFood` lets every pick through. */
  lemma SelectionIsTruthy(predictions: seq<string>)
    requires SelectFood(predictions).Some?
    ensures SelectFood(predictions).value != ""
  {
    var n := SelectFood(predictions).value;
    assert Lower(n) in FoodClasses;
    assert |Lower(n)| == |n|;
  }

  /** Every whitelisted class is a key of the app's nutrient table. */
  lemma WhitelistedNamesAreInDatabase()
    ensures forall c :: c in FoodClasses ==> c in FoodDatabase
  {
  }

  /** Confirming a pick always adds an item to the food list, carrying the
      table's nutrients for the lower-cased name and the name as detected. */
  lemma ConfirmedDetectionAddsFood(predictions: seq<string>, foods: seq<FoodItem>, id: string, now: Timestamp)
    requires SelectFood(predictions).Some?
    ensures var name := SelectFood(predictions).value;
      var added := HandleFoodDetected(foods, name, id, now);
      && |added| == |foods| + 1 && added[..|foods|] == foods
      && added[|foods|].name == name
      && ItemNutrients(added[|foods|]) == FoodDatabase[Lower(name)]
      && NutritionSummary(added) == Add(NutritionSummary(foods), FoodDatabase[Lower(name)])
  {
    var name := SelectFood(predictions).value;
    WhitelistedNamesAreInDatabase();
    SummaryAfterFoodDetected(foods, name, id, now);
  }

  /** The detector order decides: a person first, then a pizza, then an
      apple gives the pizza, with its capital letter kept. */
  lemma PizzaBeforeApple()
    ensures SelectFood(["person", "Pizza", "apple"]) == Some("Pizza")
  {
    var p := ["person", "Pizza", "apple"];
    PersonIsNotFood();
    PizzaIsFood();
    assert p[1..] == ["Pizza", "apple"];
    assert FoodItems(p) == FoodItems(p[1..]);
    assert FoodItems(p[1..]) == ["Pizza"] + FoodItems(p[1..][1..]);
  }

  lemma PersonIsNotFood()
    ensures !IsFoodClass("person")
  {
    assert Lower("person") == "person";
  }

  lemma PizzaIsFood()
    ensures IsFoodClass("Pizza")
  {
    assert Lower("Pizza") == "pizza";
  }

  /** A `detectedFood` value that passes `if (detectedFood)`. */
  predicate Truthy(detectedFood: Option<string>)
  {
    detectedFood.Some? && detectedFood.value != ""
  }

  /** The state of the panel that the handlers read and write. `hasStream`
      is `videoRef.current.srcObject` being set, which needs a mounted video
      element (a remounted `<video>` is a new element without a stream);
      `fileInputValue` is the value of the hidden file input. */
  class DetectionPanel {
    var isActive: bool
    var hasStream: bool
    var modelLoaded: bool
    var detectedFood: Option<string>
    var capturedImage: Option<string>
    var fileInputValue: string

    /** The initial `useState` values; the model is still loading. */
    constructor()
      ensures Valid()
      ensures !isActive && !hasStream && !modelLoaded
      ensures detectedFood == None && capturedImage == None && fileInputValue == ""
    {
      isActive := false;
      hasStream := false;
      modelLoaded := false;
      detectedFood := None;
      capturedImage := None;
      fileInputValue := "";
    }

    /** The `<video>` element, and with it `videoRef.current`, exists only
        while the camera is active and no image has been captured. */
    predicate VideoMounted()
      reads this
    {
      isActive && capturedImage.None?
    }

    /** Only a mounted video element can carry a stream, and the shown food
        is always one of the nine food classes, since it is only ever set to
        the first food prediction. */
    predicate Valid()
      reads this
    {
      && (hasStream ==> VideoMounted())
      && (detectedFood.Some? ==> IsFoodClass(detectedFood.value))
    }

    /** `stopCamera`: when the mounted video has a stream, stop it and reset
        the camera state; otherwise do nothing. */
    method StopCamera()
      requires Valid()
      modifies this
      ensures Valid()
      ensures old(VideoMounted() && hasStream) ==>
        !isActive && !hasStream && detectedFood == None && capturedImage == None
      ensures !old(VideoMounted() && hasStream) ==>
        isActive == old(isActive) && hasStream == old(hasStream)
        && detectedFood == old(detectedFood) && capturedImage == old(capturedImage)
      ensures modelLoaded == old(modelLoaded) && fileInputValue == old(fileInputValue)
    {
      if VideoMounted() && hasStream {
        hasStream := false;
        isActive := false;
        detectedFood := None;
        capturedImage := None;
      }
    }

    /** The pick rule both detection paths share: show the first food
        prediction, or raise `noFoodAlert` and leave the shown food as it
        was. */
    method ShowDetections(predictions: seq<string>, noFoodAlert: string) returns (alert: Option<string>)
      requires Valid()
      modifies this
      ensures Valid()
      ensures detectedFood == if SelectFood(predictions).Some? then SelectFood(predictions) else old(detectedFood)
      ensures alert == if SelectFood(predictions).Some? then None else Some(noFoodAlert)
      ensures isActive == old(isActive) && hasStream == old(hasStream) && modelLoaded == old(modelLoaded)
      ensures capturedImage == old(capturedImage) && fileInputValue == old(fileInputValue)
    {
      var foodItems := FoodItems(predictions);
      if |foodItems| > 0 {
        KeepListedMembers(predictions, FoodClasses);
        assert foodItems[0] in foodItems;
        detectedFood := Some(foodItems[0]);
        alert := None;
      } else {
        alert := Some(noFoodAlert);
      }
    }

    /** `handleImageUpload`: nothing happens without a file or a loaded model;
        `detection` is `None` when `model.detect` throws, which is caught and
        changes nothing. */
    method HandleImageUpload(hasFile: bool, detection: Option<seq<string>>) returns (alert: Option<string>)
      requires Valid()
      modifies this
      ensures Valid()
      ensures hasFile && old(modelLoaded) && detection.Some? ==>
        detectedFood == (if SelectFood(detection.value).Some? then SelectFood(detection.value) else old(detectedFood))
        && alert == (if SelectFood(detection.value).Some? then None else Some(UploadNoFoodAlert))
      ensures !(hasFile && old(modelLoaded) && detection.Some?) ==> detectedFood == old(detectedFood) && alert == None
      ensures isActive == old(isActive) && hasStream == old(hasStream) && modelLoaded == old(modelLoaded)
      ensures capturedImage == old(capturedImage) && fileInputValue == old(fileInputValue)
    {
      alert := None;
      if !hasFile || !modelLoaded {
        return;
      }
      if detection.Some? {
        alert := ShowDetections(detection.value, UploadNoFoodAlert);
      }
    }

    /** `detectFoodInImage`: nothing happens without a loaded model;
        `detection` is `None` when `model.detect` throws. */
    method DetectFoodInImage(detection: Option<seq<string>>) returns (alert: Option<string>)
      requires Valid()
      modifies this
      ensures Valid()
      ensures old(modelLoaded) && detection.Some? ==>
        detectedFood == (if SelectFood(detection.value).Some? then SelectFood(detection.value) else old(detectedFood))
        && alert == (if SelectFood(detection.value).Some? then None else Some(CaptureNoFoodAlert))
      ensures !(old(modelLoaded) && detection.Some?) ==> detectedFood == old(detectedFood) && alert == None
      ensures isActive == old(isActive) && hasStream == old(hasStream) && modelLoaded == old(modelLoaded)
      ensures capturedImage == old(capturedImage) && fileInputValue == old(fileInputValue)
    {
      alert := None;
      if !modelLoaded {
        return;
      }
      if detection.Some? {
        alert := ShowDetections(detection.value, CaptureNoFoodAlert);
      }
    }

    /** `handleConfirmFood`: with a truthy detection, report it once through
        `onFoodDetected`, stop the camera, clear the detection and the
        captured image, and clear the file input if it is rendered (it is
        only while the camera is inactive). Otherwise nothing happens. */
    method HandleConfirmFood() returns (reported: Option<string>)
      requires Valid()
      modifies this
      ensures Valid()
      ensures reported == if Truthy(old(detectedFood)) then old(detectedFood) else None
      ensures reported.Some? ==> IsFoodClass(reported.value) && Lower(reported.value) in FoodDatabase
      ensures Truthy(old(detectedFood)) ==> detectedFood == None && capturedImage == None
      ensures Truthy(old(detectedFood)) ==>
        if old(VideoMounted() && hasStream) then !isActive && !hasStream
        else isActive == old(isActive) && hasStream == old(hasStream)
      ensures Truthy(old(detectedFood)) ==>
        fileInputValue == if old(isActive) then old(fileInputValue) else ""
      ensures !Truthy(old(detectedFood)) ==>
        isActive == old(isActive) && hasStream == old(hasStream)
        && detectedFood == old(detectedFood) && capturedImage == old(capturedImage)
        && fileInputValue == old(fileInputValue)
      ensures modelLoaded == old(modelLoaded)
    {
      reported := None;
      if Truthy(detectedFood) {
        WhitelistedNamesAreInDatabase();
        reported := detectedFood;
        var inputRendered := !isActive;
        StopCamera();
        detectedFood := None;
        capturedImage := None;
        if inputRendered {
          fileInputValue := "";
        }
      }
    }
  }
}
