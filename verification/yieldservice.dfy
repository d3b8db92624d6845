/** The yield-prediction page and the ML API together: the payload the page builds
    is posted to `predict_yield`, and axios hands the reply back to the page. The
    page never sends `Area`, which the API requires, so every request that reaches
    validation is refused and the page shows the API's message. */
module YieldService {
  import opened Values
  import YieldPrediction
  import MlApi

  /** How axios settles a request: a 2xx status resolves with the parsed body (""
      for an empty one); any other status rejects with the reply attached. */
  function Axios(r: MlApi.Response): (o: YieldPrediction.Reply)
    ensures 200 <= r.status < 300 ==> o == YieldPrediction.Resolved(r.body.GetOr(JStr("")))
    ensures !(200 <= r.status < 300) ==> o == YieldPrediction.Rejected(YieldPrediction.WithResponse(r.body.GetOr(JStr(""))))
  {
    var data := r.body.GetOr(JStr(""));
    if 200 <= r.status < 300 then YieldPrediction.Resolved(data)
    else YieldPrediction.Rejected(YieldPrediction.WithResponse(data))
  }

  /** The API's answer to the page's request for a form. */
  function ServerAnswer(f: YieldPrediction.Form, modelLoaded: bool, predict: MlApi.Prediction): MlApi.Response {
    var body := YieldPrediction.PayloadJson(YieldPrediction.BuildPayload(f));
    MlApi.PredictYield(MlApi.Post, MlApi.JsonBody(body), modelLoaded, predict)
  }

  /** The page's payload is missing exactly `Area` among the required fields. */
  lemma PayloadMissesOnlyArea(pl: YieldPrediction.Payload)
    ensures MlApi.MissingFields(YieldPrediction.PayloadJson(pl), MlApi.RequiredFields) == Some(["Area"])
  {
    var j := YieldPrediction.PayloadJson(pl);
    var req := MlApi.RequiredFields;
    assert MlApi.FieldMissing(j, req[0]) == Some(false);
    assert MlApi.FieldMissing(j, req[1]) == Some(false);
    assert MlApi.FieldMissing(j, req[2]) == Some(true);
    assert MlApi.FieldMissing(j, req[3]) == Some(false);
    assert MlApi.FieldMissing(j, req[4]) == Some(false);
    assert MlApi.FieldMissing(j, req[5]) == Some(false);
    forall k | 0 <= k < 6
      ensures req[k..][0] == req[k] && req[k..][1..] == req[k + 1..]
    {
    }
    assert MlApi.MissingFields(j, req[6..]) == Some([]);
    assert MlApi.MissingFields(j, req[5..]) == Some([]);
    assert MlApi.MissingFields(j, req[4..]) == Some([]);
    assert MlApi.MissingFields(j, req[3..]) == Some([]);
    assert MlApi.MissingFields(j, req[2..]) == Some(["Area"] + []);
    assert ["Area"] + [] == ["Area"];
    assert MlApi.MissingFields(j, req[1..]) == Some(["Area"]);
  }

  /** The validator's message for a body without `Area`. */
  const AreaMissing := MlApi.MissingPrefix + "Area"

  /** Validation of any payload the page builds names `Area` alone. */
  lemma ValidationNamesArea(pl: YieldPrediction.Payload)
    ensures MlApi.ValidateRequiredFields(YieldPrediction.PayloadJson(pl), MlApi.RequiredFields) == MlApi.Invalid(AreaMissing)
  {
    PayloadMissesOnlyArea(pl);
    OnlyAreaMissing(YieldPrediction.PayloadJson(pl));
  }

  /** A body that lacks `Area` alone is refused with the message naming it. */
  lemma OnlyAreaMissing(data: Json)
    requires MlApi.MissingFields(data, MlApi.RequiredFields) == Some(["Area"])
    ensures MlApi.ValidateRequiredFields(data, MlApi.RequiredFields) == MlApi.Invalid(AreaMissing)
  {
    assert Join(["Area"], ", ") == "Area";
  }

  /** Whatever a payload holds and whatever the model would say, the API answers it
      with 503 when no model is loaded and with a 400 naming `Area` otherwise; the
      model is never consulted. */
  lemma PayloadIsRefused(pl: YieldPrediction.Payload, modelLoaded: bool, predict: MlApi.Prediction)
    ensures !modelLoaded ==>
      (MlApi.PredictYield(MlApi.Post, MlApi.JsonBody(YieldPrediction.PayloadJson(pl)), modelLoaded, predict) ==
       MlApi.ErrorResponse(MlApi.ModelMissing, 503))
    ensures modelLoaded ==>
      (MlApi.PredictYield(MlApi.Post, MlApi.JsonBody(YieldPrediction.PayloadJson(pl)), modelLoaded, predict) ==
       MlApi.ErrorResponse(AreaMissing, 400))
  {
    var j := YieldPrediction.PayloadJson(pl);
    assert PyTruthy(j) by {
      assert |j.fields| > 0 by {
        assert "Crop" in j.fields.Keys;
      }
    }
    ValidationNamesArea(pl);
  }

  /** The same for the page's request, whatever the form holds. */
  lemma ClientPayloadIsRefused(f: YieldPrediction.Form, modelLoaded: bool, predict: MlApi.Prediction)
    ensures !modelLoaded ==> ServerAnswer(f, modelLoaded, predict) == MlApi.ErrorResponse(MlApi.ModelMissing, 503)
    ensures modelLoaded ==> ServerAnswer(f, modelLoaded, predict) == MlApi.ErrorResponse(AreaMissing, 400)
  {
    PayloadIsRefused(YieldPrediction.BuildPayload(f), modelLoaded, predict);
  }

  /** An error envelope, rejected by axios, is shown by the page with the API's
      own message. */
  lemma ErrorEnvelopeIsShown(p: YieldPrediction.Page, msg: string, status: int)
    requires msg != "" && !(200 <= status < 300)
    ensures YieldPrediction.HandleGetEstimate(p, Axios(MlApi.ErrorResponse(msg, status))).errorMessage == Some(JStr(msg))
    ensures YieldPrediction.HandleGetEstimate(p, Axios(MlApi.ErrorResponse(msg, status))).prediction.None?
  {
    var body := MlApi.ErrorResponse(msg, status).body.value;
    assert Prop(body, "msg").None?;
    assert YieldPrediction.ErrorMessage(YieldPrediction.WithResponse(body)) == JStr(msg);
  }

  /** End to end, the page never shows a prediction: it shows the missing-model
      message or the missing-`Area` message. */
  lemma PageNeverPredicts(p: YieldPrediction.Page, modelLoaded: bool, predict: MlApi.Prediction)
    ensures YieldPrediction.HandleGetEstimate(p, Axios(ServerAnswer(p.form, modelLoaded, predict))).prediction.None?
    ensures YieldPrediction.HandleGetEstimate(p, Axios(ServerAnswer(p.form, modelLoaded, predict))).errorMessage ==
      Some(JStr(if modelLoaded then AreaMissing else MlApi.ModelMissing))
  {
    ClientPayloadIsRefused(p.form, modelLoaded, predict);
    if modelLoaded {
      ErrorEnvelopeIsShown(p, AreaMissing, 400);
    } else {
      ErrorEnvelopeIsShown(p, MlApi.ModelMissing, 503);
    }
  }

  /** Were the API to answer with its success envelope, the page would read the
      yield from `data.yield` and show it clamped and rounded. */
  lemma SuccessEnvelopeIsRead(p: YieldPrediction.Page, y: real, m: map<string, Json>)
    ensures YieldPrediction.HandleGetEstimate(p, Axios(MlApi.SuccessResponse(MlApi.ResultJson(y, m), 200))).prediction ==
      Some(YieldPrediction.Display(YieldPrediction.BuildPayload(p.form).crop, MlApi.Round4(y)))
  {
    var inner := MlApi.ResultJson(y, m);
    var resp := MlApi.SuccessResponse(inner, 200);
    var body := resp.body.value;
    assert Axios(resp) == YieldPrediction.Resolved(body);
    assert inner.JObj? && inner.fields["yield"] == JNum(MlApi.Round4(y));
    YieldPrediction.EnvelopeYieldFirst(body, inner.fields);
    var crop := YieldPrediction.BuildPayload(p.form).crop;
    assert YieldPrediction.ToNumber(JNum(MlApi.Round4(y))) == Some(MlApi.Round4(y));
    assert YieldPrediction.Interpret(crop, body) == YieldPrediction.Predicted(YieldPrediction.Display(crop, MlApi.Round4(y)));
  }
}
