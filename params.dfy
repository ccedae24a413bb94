/** Start-up configuration rules of the localization node and its run-time
    reconfiguration: the parameter records, the sizing of the landmark
    buffers, the visualization delay, the dark-current fallback and the
    dynamic_reconfigure field copy. */
module Params {
  import opened Messages

  datatype ControllerGains = ControllerGains(
    kpXy: real, kiXy: real, kdXy: real,
    kpZ: real, kiZ: real, kdZ: real,
    kpYaw: real, kdYaw: real, iLim: real)

  datatype ProcessNoise = ProcessNoise(qv: real, qw: real, qwo: real, qao: real, qRci: real)

  /** imageNoise holds image_noise[0] and image_noise[1]. */
  datatype NoiseParams = NoiseParams(processNoise: ProcessNoise, imageNoise: (real, real), sigmaInit: real)

  datatype VioParams = VioParams(
    numPointsPerAnchor: int, numAnchors: int, maxEkfIterations: int,
    delayedInitialization: bool, mono: bool, fixedFeature: bool)

  /** The fields of vio_ros::vio_rosConfig that the reconfigure callback reads. */
  datatype VioRosConfig = VioRosConfig(
    kpXy: real, kiXy: real, kdXy: real,
    kpZ: real, kiZ: real, kdZ: real,
    kpYaw: real, kdYaw: real, iLim: real,
    imNoise: real, accNoise: real, gyroNoise: real, gyroBiasNoise: real, sigmaInit: real,
    maxEkfIterations: int, fixedFeature: bool, showTrackerImages: bool)

  /** The part of the node's configuration that reconfiguration writes. */
  datatype Tunables = Tunables(gains: ControllerGains, noise: NoiseParams, vio: VioParams, showCameraImage: bool)

  /** The effect of dynamicReconfigureCb on the configuration, field by field.
      The acceleration noise is written into qv and then overwritten there by
      the gyro noise; qw, qao and qRci are never written. */
  function Reconfigure(t: Tunables, c: VioRosConfig): (r: Tunables)
    ensures r.gains == ControllerGains(c.kpXy, c.kiXy, c.kdXy, c.kpZ, c.kiZ, c.kdZ, c.kpYaw, c.kdYaw, c.iLim)
    ensures r.noise.imageNoise == (c.imNoise, c.imNoise) && r.noise.sigmaInit == c.sigmaInit
    ensures r.noise.processNoise == t.noise.processNoise.(qv := c.gyroNoise, qwo := c.gyroBiasNoise)
    ensures r.vio == t.vio.(maxEkfIterations := c.maxEkfIterations, fixedFeature := c.fixedFeature)
    ensures r.showCameraImage == c.showTrackerImages
  {
    var gains := t.gains.(kpXy := c.kpXy, kiXy := c.kiXy, kdXy := c.kdXy)
                        .(kpZ := c.kpZ, kiZ := c.kiZ, kdZ := c.kdZ)
                        .(kpYaw := c.kpYaw, kdYaw := c.kdYaw, iLim := c.iLim);
    var pn := t.noise.processNoise.(qv := c.accNoise);
    var pn := pn.(qv := c.gyroNoise);
    var pn := pn.(qwo := c.gyroBiasNoise);
    var noise := t.noise.(imageNoise := (c.imNoise, c.imNoise), processNoise := pn, sigmaInit := c.sigmaInit);
    var vio := t.vio.(maxEkfIterations := c.maxEkfIterations, fixedFeature := c.fixedFeature);
    Tunables(gains, noise, vio, c.showTrackerImages)
  }

  /** A later reconfiguration wholly replaces an earlier one: what survives of
      the earlier request is nothing, what survives of the original
      configuration is the fields no request writes. */
  lemma ReconfigureLastWins(t: Tunables, c1: VioRosConfig, c2: VioRosConfig)
    ensures Reconfigure(Reconfigure(t, c1), c2) == Reconfigure(t, c2)
  {
  }

  /** Reconfiguration never changes the estimator sizing, so the landmark
      count fixed at start-up stays valid. */
  lemma ReconfigureKeepsSizing(t: Tunables, c: VioRosConfig)
    ensures Reconfigure(t, c).vio.numAnchors == t.vio.numAnchors
    ensures Reconfigure(t, c).vio.numPointsPerAnchor == t.vio.numPointsPerAnchor
    ensures Reconfigure(t, c).noise.processNoise.qw == t.noise.processNoise.qw
    ensures Reconfigure(t, c).noise.processNoise.qao == t.noise.processNoise.qao
    ensures Reconfigure(t, c).noise.processNoise.qRci == t.noise.processNoise.qRci
  {
  }

  /** A C++ conversion of a double to an int: truncation toward zero. */
  function TruncateToInt(q: real): (n: int)
    ensures q >= 0.0 ==> 0 <= n && n as real <= q < n as real + 1.0
    ensures q < 0.0 ==> n <= 0 && n as real - 1.0 < q <= n as real
  {
    if q >= 0.0 then q.Floor else -((-q).Floor)
  }

  /** vis_publish_delay: fps / vision_subsample / debug_publish_freq stored in
      an int, with a zero result replaced by 1. Only zero is replaced; a
      negative quotient below -1 stays negative. */
  function VisPublishDelay(fpsDuo: real, visionSubsample: int, debugPublishFreq: real): (d: int)
    requires visionSubsample != 0 && debugPublishFreq != 0.0
    ensures d != 0
    ensures var q := fpsDuo / visionSubsample as real / debugPublishFreq;
      && (d == 1 <==> -1.0 < q < 2.0)
      && (q >= 0.0 ==> d == if q < 1.0 then 1 else q.Floor)
      && (q <= -1.0 ==> d < 0 && d as real - 1.0 < q <= d as real)
  {
    var delay := TruncateToInt(fpsDuo / visionSubsample as real / debugPublishFreq);
    if delay == 0 then 1 else delay
  }

  /** With the shipped defaults (60 fps, no subsampling, 1 Hz) the delay is
      60 samples; a negative publish frequency yields a negative delay. */
  lemma VisPublishDelayExamples()
    ensures VisPublishDelay(60.0, 1, 1.0) == 60
    ensures VisPublishDelay(60.0, 4, 30.0) == 1
    ensures VisPublishDelay(60.0, 1, -1.0) == -60
  {
  }

  /** The per-landmark buffers allocated at start-up. */
  datatype Sizing = Sizing(numPoints: nat, updateVec: seq<int>)

  /** num_points_ = num_anchors * num_points_per_anchor and update_vec_ holds
      that many zeros; a negative product makes the allocation throw. */
  function StartupSizing(vio: VioParams): (r: Option<Sizing>)
    ensures r.Some? <==> vio.numAnchors * vio.numPointsPerAnchor >= 0
    ensures r.Some? ==> r.value.numPoints == vio.numAnchors * vio.numPointsPerAnchor
    ensures r.Some? ==> |r.value.updateVec| == r.value.numPoints
    ensures r.Some? ==> forall i :: 0 <= i < |r.value.updateVec| ==> r.value.updateVec[i] == 0
  {
    var n := vio.numAnchors * vio.numPointsPerAnchor;
    if n < 0 then None else Some(Sizing(n, seq(n, _ => 0)))
  }

  /** cv::Mat::zeros(height, width, CV_8U). */
  function ZeroImage(height: nat, width: nat): (img: Image)
    ensures img.rows == height && img.cols == width && |img.pixels| == height * width
    ensures forall i :: 0 <= i < |img.pixels| ==> img.pixels[i] == 0
  {
    Image(height, width, seq(height * width, _ => 0))
  }

  /** The dark-current image the node keeps: the loaded one when it has data
      and the configured resolution, otherwise (load_default_dark_current) a
      zero image of that resolution, which cannot be built for a negative
      one. */
  function DarkCurrent(loaded: Option<Image>, height: int, width: int): (r: Option<Image>)
    ensures loaded.Some? && loaded.value.rows == height && loaded.value.cols == width ==> r == loaded
    ensures !(loaded.Some? && loaded.value.rows == height && loaded.value.cols == width) ==>
      (r.Some? <==> height >= 0 && width >= 0)
    ensures !(loaded.Some? && loaded.value.rows == height && loaded.value.cols == width) && r.Some? ==>
      forall i :: 0 <= i < |r.value.pixels| ==> r.value.pixels[i] == 0
    ensures r.Some? ==> r.value.rows == height && r.value.cols == width
  {
    var fallback := loaded.None? || loaded.value.rows != height || loaded.value.cols != width;
    if !fallback then loaded
    else if height >= 0 && width >= 0 then Some(ZeroImage(height, width))
    else None
  }
}
