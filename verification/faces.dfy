/**
 * `FaceDetector`: the CPU/GPU mode negotiation, the padded face crop and
 * the gate that decides whether a face is sent to the gender classifier,
 * and the assembly of the detector's per-frame report. The cascades and
 * networks are opaque: the face rectangles, the gender network's answer
 * and the YOLO output are inputs.
 */
module Faces {
  import opened Wrappers
  import opened Numeric
  import opened Image
  import opened Gender
  import Objects

  /** Pixels added on every side of a face before cropping it for the gender classifier. */
  const Padding: int := 10

  /** A face must be wider and taller than this (strictly) to be classified. */
  const MinGenderSide: int := 20

  /** The slice bounds `frame[y1:y2, x1:x2]` of a face crop. */
  datatype Crop = Crop(x1: int, y1: int, x2: int, y2: int)

  /**
   * The padded crop of a face: the rectangle grown by `Padding` on every
   * side and clamped to the frame, `max(0, ·)` on the low side and
   * `min(size, ·)` on the high side.
   */
  function PaddedCrop(r: Rect, f: Frame): (c: Crop)
    ensures 0 <= c.x1 && 0 <= c.y1
    ensures c.x2 <= f.width && c.y2 <= f.height
    ensures (r.x >= 0 ==> c.x1 <= r.x) && (r.y >= 0 ==> c.y1 <= r.y)
    ensures (r.x + r.w <= f.width ==> r.x + r.w <= c.x2) && (r.y + r.h <= f.height ==> r.y + r.h <= c.y2)
    ensures (r.x >= Padding ==> c.x1 == r.x - Padding) && (r.y >= Padding ==> c.y1 == r.y - Padding)
    ensures (r.x + r.w + Padding <= f.width ==> c.x2 == r.x + r.w + Padding)
    ensures (r.y + r.h + Padding <= f.height ==> c.y2 == r.y + r.h + Padding)
    // Clamped where the padding does not fit.
    ensures (r.x < Padding ==> c.x1 == 0) && (r.y < Padding ==> c.y1 == 0)
    ensures (r.x + r.w + Padding > f.width ==> c.x2 == f.width)
    ensures (r.y + r.h + Padding > f.height ==> c.y2 == f.height)
  {
    var x1 := if r.x - Padding > 0 then r.x - Padding else 0;
    var y1 := if r.y - Padding > 0 then r.y - Padding else 0;
    var x2 := if f.width < r.x + r.w + Padding then f.width else r.x + r.w + Padding;
    var y2 := if f.height < r.y + r.h + Padding then f.height else r.y + r.h + Padding;
    Crop(x1, y1, x2, y2)
  }

  /** `face_img.size` for `face_img = frame[y1:y2, x1:x2]`: rows times columns times channels. */
  function CropSize(f: Frame, c: Crop): (size: nat)
    ensures size > 0 <==> SliceLen(c.y1, c.y2, f.height) > 0 && SliceLen(c.x1, c.x2, f.width) > 0 && f.channels > 0
  {
    SliceLen(c.y1, c.y2, f.height) * SliceLen(c.x1, c.x2, f.width) * f.channels
  }

  /** The gate in front of the gender classifier: a non-empty crop of a face larger than 20 by 20. */
  predicate GenderGate(f: Frame, r: Rect)
    ensures GenderGate(f, r) <==>
              r.w > MinGenderSide && r.h > MinGenderSide && f.channels > 0 &&
              SliceLen(PaddedCrop(r, f).x1, PaddedCrop(r, f).x2, f.width) > 0 &&
              SliceLen(PaddedCrop(r, f).y1, PaddedCrop(r, f).y2, f.height) > 0
  {
    CropSize(f, PaddedCrop(r, f)) > 0 && r.w > MinGenderSide && r.h > MinGenderSide
  }

  /** The gate only opens for faces larger than 20 by 20 in a frame with pixel channels. */
  lemma GateNeedsSize(f: Frame, r: Rect)
    requires GenderGate(f, r)
    ensures r.w > MinGenderSide && r.h > MinGenderSide && f.channels > 0
    ensures SliceLen(PaddedCrop(r, f).x1, PaddedCrop(r, f).x2, f.width) > 0
    ensures SliceLen(PaddedCrop(r, f).y1, PaddedCrop(r, f).y2, f.height) > 0
  {
  }

  /**
   * A face larger than 20 by 20 whose corner lies inside a frame with pixel
   * channels always passes the gate: the padded crop is never empty.
   */
  lemma GateOpensInsideFrame(f: Frame, r: Rect)
    requires 0 <= r.x < f.width && 0 <= r.y < f.height
    requires r.w > MinGenderSide && r.h > MinGenderSide && f.channels > 0
    ensures GenderGate(f, r)
  {
    var c := PaddedCrop(r, f);
    var rows := SliceLen(c.y1, c.y2, f.height);
    var cols := SliceLen(c.x1, c.x2, f.width);
    assert c.x1 <= r.x < c.x2 && c.y1 <= r.y < c.y2;
    assert cols == c.x2 - c.x1 > 0;
    assert rows == c.y2 - c.y1 > 0;
    assert rows * cols > 0;
    assert rows * cols * f.channels > 0;
  }

  /** One entry of `faces_data`: the face as detected (unpadded) and its gender label. */
  datatype FaceEntry = FaceEntry(rect: Rect, gender: string)

  /**
   * The `faces_data` entry for one face. `net` is the gender network: what
   * its forward pass yields on a crop of the frame.
   */
  function FaceEntryOf(g: GenderDetector, f: Frame, r: Rect, net: (Frame, Crop) -> Forward): (e: FaceEntry)
    ensures e.rect == r
    ensures IsGenderLabel(e.gender)
    ensures e.gender != "Unknown" <==> GenderGate(f, r) && g.enabled && g.hasNet
    ensures e.gender in GenderList ==> GenderGate(f, r)
    // A face through the gate is labelled by the classifier on its padded crop; any other is Unknown.
    ensures GenderGate(f, r) ==> e.gender == PredictGender(g, net(f, PaddedCrop(r, f)))
    ensures !GenderGate(f, r) ==> e.gender == "Unknown"
  {
    if GenderGate(f, r) then FaceEntry(r, PredictGender(g, net(f, PaddedCrop(r, f))))
    else FaceEntry(r, "Unknown")
  }

  /**
   * The gender loop of `FaceDetector.detect`: one entry per face rectangle,
   * in the same order, carrying the original rectangle.
   */
  method LabelFaces(g: GenderDetector, f: Frame, faceRects: seq<Rect>, net: (Frame, Crop) -> Forward)
    returns (facesData: seq<FaceEntry>)
    ensures |facesData| == |faceRects|
    ensures forall i :: 0 <= i < |faceRects| ==> facesData[i] == FaceEntryOf(g, f, faceRects[i], net)
  {
    facesData := [];
    var i := 0;
    while i < |faceRects|
      invariant 0 <= i <= |faceRects|
      invariant |facesData| == i
      invariant forall k :: 0 <= k < i ==> facesData[k] == FaceEntryOf(g, f, faceRects[k], net)
    {
      var r := faceRects[i];
      var crop := PaddedCrop(r, f);
      var gender;
      if CropSize(f, crop) > 0 && r.w > MinGenderSide && r.h > MinGenderSide {
        gender := PredictGender(g, net(f, crop));
      } else {
        gender := "Unknown";
      }
      facesData := facesData + [FaceEntry(r, gender)];
      i := i + 1;
    }
  }

  /** The dictionary `detect` returns: `{'faces': ..., 'objects': ...}`. */
  datatype DetectorReport = DetectorReport(faces: seq<FaceEntry>, objects: seq<Objects.Labelled>)

  /** What probing CUDA finds: no `cv2.cuda` at all, or a device count and whether the CUDA cascade could be built. */
  datatype CudaProbe = NoCudaModule | Devices(count: int, cascadeBuilds: bool)

  class FaceDetector {
    var useCuda: bool
    var gpuAvailable: bool
    /** `cuda_cascade is not None` */
    var hasCudaCascade: bool
    const genderDetector: GenderDetector
    const objectDetector: Objects.ObjectDetector

    /** GPU availability and the GPU mode both rest on a CUDA cascade. */
    ghost predicate Valid()
      reads this
    {
      (gpuAvailable ==> hasCudaCascade) && (useCuda ==> hasCudaCascade)
    }

    /** `FaceDetector.__init__`: CPU mode, then the CUDA probe. */
    constructor (probe: CudaProbe, genderDetector: GenderDetector, objectDetector: Objects.ObjectDetector)
      ensures Valid() && !useCuda
      ensures gpuAvailable <==> probe.Devices? && probe.count > 0 && probe.cascadeBuilds
      ensures hasCudaCascade == gpuAvailable
      ensures this.genderDetector == genderDetector && this.objectDetector == objectDetector
    {
      useCuda := false;
      hasCudaCascade := false;
      gpuAvailable := false;
      this.genderDetector := genderDetector;
      this.objectDetector := objectDetector;
      new;
      CheckCuda(probe);
    }

    /**
     * `check_cuda`: the GPU is available only with at least one CUDA device
     * and a CUDA cascade that could be built. With no devices the flag is
     * left as it was; the cascade, once built, is never dropped.
     */
    method CheckCuda(probe: CudaProbe)
      requires Valid()
      modifies this
      ensures Valid() && useCuda == old(useCuda)
      ensures probe.NoCudaModule? ==> !gpuAvailable && hasCudaCascade == old(hasCudaCascade)
      ensures probe.Devices? && probe.count <= 0 ==>
                gpuAvailable == old(gpuAvailable) && hasCudaCascade == old(hasCudaCascade)
      ensures probe.Devices? && probe.count > 0 ==>
                gpuAvailable == probe.cascadeBuilds && hasCudaCascade == (old(hasCudaCascade) || probe.cascadeBuilds)
    {
      match probe
      case NoCudaModule =>
        gpuAvailable := false;
      case Devices(count, cascadeBuilds) =>
        if count > 0 {
          gpuAvailable := true;
          if cascadeBuilds {
            hasCudaCascade := true;
          } else {
            gpuAvailable := false;
          }
        }
    }

    /**
     * `set_mode`: GPU mode is engaged only when requested, available and
     * backed by a CUDA cascade; otherwise the detector falls back to CPU.
     * The mode actually engaged is returned.
     */
    method SetMode(useGpu: bool) returns (engaged: bool)
      requires Valid()
      modifies this
      ensures Valid() && engaged == useCuda
      ensures engaged <==> useGpu && gpuAvailable && hasCudaCascade
      ensures !useGpu ==> !engaged
      ensures !gpuAvailable ==> !engaged
      ensures gpuAvailable == old(gpuAvailable) && hasCudaCascade == old(hasCudaCascade)
    {
      if useGpu && gpuAvailable && hasCudaCascade {
        useCuda := true;
      } else {
        useCuda := false;
      }
      engaged := useCuda;
    }

    /**
     * `FaceDetector.detect` after the cascade has run: label the faces, run
     * the object detector, and report the latency in milliseconds between
     * the two clock readings. `None` when the object detector raises.
     */
    method Detect(frame: Frame, faceRects: seq<Rect>, genderNet: (Frame, Crop) -> Forward,
                  outs: seq<seq<Objects.Row>>, nms: (seq<Rect>, seq<real>) -> seq<nat>,
                  startTime: real, endTime: real)
      returns (r: Option<(DetectorReport, real)>)
      requires Objects.WellFormed(outs)
      ensures r.Some? <==> Objects.ObjectResults(objectDetector, frame, outs, nms).Some?
      ensures r.Some? ==> r.value.0.objects == Objects.ObjectResults(objectDetector, frame, outs, nms).value
      ensures r.Some? ==> |r.value.0.faces| == |faceRects|
      ensures r.Some? ==> forall i :: 0 <= i < |faceRects| ==>
                r.value.0.faces[i] == FaceEntryOf(genderDetector, frame, faceRects[i], genderNet)
      ensures r.Some? ==> r.value.1 == (endTime - startTime) * 1000.0
    {
      var facesData := LabelFaces(genderDetector, frame, faceRects, genderNet);
      var objectsData := Objects.Detect(objectDetector, frame, outs, nms);
      if objectsData.None? {
        return None;
      }
      var latency := (endTime - startTime) * 1000.0;
      r := Some((DetectorReport(facesData, objectsData.value), latency));
    }
  }
}
