/**
 * PipelinePluginContext and SparkPipelinePluginContext: every plugin instance handed out is wrapped
 * according to the first pipeline plugin interface it implements, in a fixed order, with a caller
 * that sets the plugin's class loader, tags log messages with the stage and, for most kinds, times
 * the calls. Plugins of no known kind go to `wrapUnknownPlugin`: the base context returns them
 * unchanged, the Spark context first tries the Spark-specific kinds.
 *
 * A plugin is the set of interfaces it implements and its class loader; the wrapper objects and the
 * callers are represented by what they are built from.
 */
module PluginWrapping {
  import opened Wrappers

  /** The pipeline plugin interfaces that decide the wrapper. */
  datatype PluginType =
    | Action | BatchSource | BatchSink | ErrorTransform | Transform | BatchAggregator | BatchJoiner | PostAction
    | Windower | SparkCompute | SparkSink | StreamingSource

  /** The order in which `wrapPlugin` tests the interfaces. */
  const BASE_ORDER: seq<PluginType> :=
    [Action, BatchSource, BatchSink, ErrorTransform, Transform, BatchAggregator, BatchJoiner, PostAction]

  /** The order in which the Spark context's `wrapUnknownPlugin` tests the Spark interfaces. */
  const SPARK_ORDER: seq<PluginType> := [Windower, SparkCompute, SparkSink, StreamingSource]

  /** A plugin instance: its identity, the interfaces its class implements, and its class's class loader. */
  datatype Plugin = Plugin(instance: nat, interfaces: set<PluginType>, classLoader: nat)

  /** A Caller, as the layers it is built from. */
  datatype Caller =
    | Default
    | Timing(inner: Caller, metricsStage: string)      // TimingCaller with the stage's DefaultStageMetrics
    | StageLogging(inner: Caller, stage: string)       // StageLoggingCaller
    | ClassLoaderCaller(inner: Caller, classLoader: nat)

  /** What `wrapPlugin` returns: a Wrapped<kind> around the plugin with a caller, or the plugin itself. */
  datatype Wrapped =
    | WrappedPlugin(kind: PluginType, plugin: Plugin, caller: Caller)
    | Unwrapped(plugin: Plugin)

  /** Which of the two contexts is in use. */
  datatype ContextKind = Pipeline | SparkPipeline

  /** getTimedCaller */
  function TimedCaller(pluginId: string, plugin: Plugin): Caller {
    ClassLoaderCaller(StageLogging(Timing(Default, pluginId), pluginId), plugin.classLoader)
  }

  /** getUntimedCaller (Spark context): no timing, since those plugins' methods run in the Spark driver. */
  function UntimedCaller(pluginId: string, plugin: Plugin): Caller {
    ClassLoaderCaller(StageLogging(Default, pluginId), plugin.classLoader)
  }

  /** wrapUnknownPlugin: the base context returns the plugin; the Spark context tries its own kinds. */
  function WrapUnknownPlugin(context: ContextKind, pluginId: string, plugin: Plugin): Wrapped {
    match context
    case Pipeline => Unwrapped(plugin)
    case SparkPipeline =>
      if Windower in plugin.interfaces then WrappedPlugin(Windower, plugin, TimedCaller(pluginId, plugin))
      else if SparkCompute in plugin.interfaces then WrappedPlugin(SparkCompute, plugin, UntimedCaller(pluginId, plugin))
      else if SparkSink in plugin.interfaces then WrappedPlugin(SparkSink, plugin, UntimedCaller(pluginId, plugin))
      else if StreamingSource in plugin.interfaces then
        WrappedPlugin(StreamingSource, plugin, UntimedCaller(pluginId, plugin))
      else Unwrapped(plugin)
  }

  /** wrapPlugin: the first interface of the chain the plugin implements decides its wrapper. */
  function WrapPlugin(context: ContextKind, pluginId: string, plugin: Plugin): Wrapped {
    var caller := TimedCaller(pluginId, plugin);
    var ifaces := plugin.interfaces;
    if Action in ifaces then WrappedPlugin(Action, plugin, caller)
    else if BatchSource in ifaces then WrappedPlugin(BatchSource, plugin, caller)
    else if BatchSink in ifaces then WrappedPlugin(BatchSink, plugin, caller)
    else if ErrorTransform in ifaces then WrappedPlugin(ErrorTransform, plugin, caller)
    else if Transform in ifaces then WrappedPlugin(Transform, plugin, caller)
    else if BatchAggregator in ifaces then WrappedPlugin(BatchAggregator, plugin, caller)
    else if BatchJoiner in ifaces then WrappedPlugin(BatchJoiner, plugin, caller)
    else if PostAction in ifaces then WrappedPlugin(PostAction, plugin, caller)
    else WrapUnknownPlugin(context, pluginId, plugin)
  }

  /** The first type of `order` the plugin implements. */
  function FirstMatch(order: seq<PluginType>, interfaces: set<PluginType>): (r: Option<PluginType>)
    ensures r.None? <==> forall t :: t in order ==> t !in interfaces
    ensures r.Some? ==> exists i :: 0 <= i < |order| && order[i] == r.value && r.value in interfaces
                                    && forall j :: 0 <= j < i ==> order[j] !in interfaces
  {
    if order == [] then None
    else if order[0] in interfaces then Some(order[0])
    else
      var rest := FirstMatch(order[1..], interfaces);
      assert forall t :: t in order ==> t == order[0] || t in order[1..];
      if rest.Some? then
        var i :| 0 <= i < |order[1..]| && order[1..][i] == rest.value && rest.value in interfaces
                 && forall j :: 0 <= j < i ==> order[1..][j] !in interfaces;
        assert order[i + 1] == rest.value;
        assert forall j :: 1 <= j < i + 1 ==> order[j] == order[1..][j - 1];
        rest
      else rest
  }

  /** The kinds of layer a caller has, outermost first. */
  datatype Layer = DefaultLayer | TimingLayer | StageLoggingLayer | ClassLoaderLayer

  function Layers(c: Caller): seq<Layer> {
    match c
    case Default => [DefaultLayer]
    case Timing(inner, _) => [TimingLayer] + Layers(inner)
    case StageLogging(inner, _) => [StageLoggingLayer] + Layers(inner)
    case ClassLoaderCaller(inner, _) => [ClassLoaderLayer] + Layers(inner)
  }

  /** Every stage a caller's metrics and log messages are scoped to is `pluginId`. */
  predicate ScopedTo(c: Caller, pluginId: string) {
    match c
    case Default => true
    case Timing(inner, stage) => stage == pluginId && ScopedTo(inner, pluginId)
    case StageLogging(inner, stage) => stage == pluginId && ScopedTo(inner, pluginId)
    case ClassLoaderCaller(inner, _) => ScopedTo(inner, pluginId)
  }

  /**
   * The timed caller sets the plugin's class loader around stage logging around timing around the
   * default caller; the untimed caller is the same without the timing layer. Both are scoped to the
   * plugin id.
   */
  lemma CallerLayering(pluginId: string, plugin: Plugin)
    ensures Layers(TimedCaller(pluginId, plugin)) == [ClassLoaderLayer, StageLoggingLayer, TimingLayer, DefaultLayer]
    ensures Layers(UntimedCaller(pluginId, plugin)) == [ClassLoaderLayer, StageLoggingLayer, DefaultLayer]
    ensures ScopedTo(TimedCaller(pluginId, plugin), pluginId) && ScopedTo(UntimedCaller(pluginId, plugin), pluginId)
    ensures TimedCaller(pluginId, plugin).classLoader == plugin.classLoader
    ensures UntimedCaller(pluginId, plugin).classLoader == plugin.classLoader
  {
    assert Layers(Timing(Default, pluginId)) == [TimingLayer] + [DefaultLayer];
    assert Layers(StageLogging(Timing(Default, pluginId), pluginId))
        == [StageLoggingLayer] + ([TimingLayer] + [DefaultLayer]);
    assert Layers(StageLogging(Default, pluginId)) == [StageLoggingLayer] + [DefaultLayer];
    assert ScopedTo(StageLogging(Timing(Default, pluginId), pluginId), pluginId);
    assert ScopedTo(StageLogging(Default, pluginId), pluginId);
  }

  /**
   * Dispatch is first-match in the base order: the first base interface the plugin implements is the
   * kind it is wrapped as, with the timed caller; a plugin with none goes to wrapUnknownPlugin.
   */
  lemma WrapPluginIsFirstMatch(context: ContextKind, pluginId: string, plugin: Plugin)
    ensures var r := WrapPlugin(context, pluginId, plugin);
            match FirstMatch(BASE_ORDER, plugin.interfaces)
            case Some(t) => r == WrappedPlugin(t, plugin, TimedCaller(pluginId, plugin))
            case None => r == WrapUnknownPlugin(context, pluginId, plugin)
  {
    var o := BASE_ORDER;
    match FirstMatch(o, plugin.interfaces)
    case None =>
      assert forall i :: 0 <= i < |o| ==> o[i] !in plugin.interfaces;
    case Some(t) =>
      var i :| 0 <= i < |o| && o[i] == t && t in plugin.interfaces
               && forall j :: 0 <= j < i ==> o[j] !in plugin.interfaces;
      assert o[0] == Action && o[1] == BatchSource && o[2] == BatchSink && o[3] == ErrorTransform;
      assert o[4] == Transform && o[5] == BatchAggregator && o[6] == BatchJoiner && o[7] == PostAction;
  }

  /** A plugin that is both an ErrorTransform and a Transform is wrapped as an ErrorTransform. */
  lemma ErrorTransformBeforeTransform(context: ContextKind, pluginId: string, plugin: Plugin)
    requires ErrorTransform in plugin.interfaces && Transform in plugin.interfaces
    requires Action !in plugin.interfaces && BatchSource !in plugin.interfaces && BatchSink !in plugin.interfaces
    ensures WrapPlugin(context, pluginId, plugin) == WrappedPlugin(ErrorTransform, plugin, TimedCaller(pluginId, plugin))
  {
  }

  /**
   * The Spark kinds are considered only when no base kind matches: a plugin with a base interface is
   * wrapped the same way by both contexts.
   */
  lemma SparkKindsOnlyAfterBaseKinds(pluginId: string, plugin: Plugin)
    requires exists t :: t in BASE_ORDER && t in plugin.interfaces
    ensures WrapPlugin(SparkPipeline, pluginId, plugin) == WrapPlugin(Pipeline, pluginId, plugin)
    ensures WrapPlugin(SparkPipeline, pluginId, plugin).WrappedPlugin?
    ensures WrapPlugin(SparkPipeline, pluginId, plugin).kind in BASE_ORDER
  {
    WrapPluginIsFirstMatch(SparkPipeline, pluginId, plugin);
    WrapPluginIsFirstMatch(Pipeline, pluginId, plugin);
  }

  /**
   * In the Spark context a plugin with no base interface is wrapped as the first Spark interface it
   * implements: a Windower with the timed caller, SparkCompute, SparkSink and StreamingSource with the
   * untimed one; any other plugin is returned unchanged. The base context returns it unchanged.
   */
  lemma {:induction false} UnknownPluginDispatch(context: ContextKind, pluginId: string, plugin: Plugin)
    requires forall t :: t in BASE_ORDER ==> t !in plugin.interfaces
    ensures var r := WrapPlugin(context, pluginId, plugin);
            && (context == Pipeline ==> r == Unwrapped(plugin))
            && (context == SparkPipeline ==>
                  match FirstMatch(SPARK_ORDER, plugin.interfaces)
                  case None => r == Unwrapped(plugin)
                  case Some(t) =>
                    r == WrappedPlugin(t, plugin,
                           if t == Windower then TimedCaller(pluginId, plugin) else UntimedCaller(pluginId, plugin)))
  {
    WrapPluginIsFirstMatch(context, pluginId, plugin);
    assert FirstMatch(BASE_ORDER, plugin.interfaces).None?;
    assert WrapPlugin(context, pluginId, plugin) == WrapUnknownPlugin(context, pluginId, plugin);
    var ifaces := plugin.interfaces;
    var o := SPARK_ORDER;
    assert o[0] == Windower;
    if Windower in ifaces {
      assert FirstMatch(o, ifaces) == Some(Windower);
    } else {
      var o1 := o[1..];
      assert o1 == [SparkCompute, SparkSink, StreamingSource];
      assert FirstMatch(o, ifaces) == FirstMatch(o1, ifaces);
      if SparkCompute in ifaces {
        assert FirstMatch(o1, ifaces) == Some(SparkCompute);
      } else {
        var o2 := o1[1..];
        assert o2 == [SparkSink, StreamingSource];
        assert FirstMatch(o1, ifaces) == FirstMatch(o2, ifaces);
        if SparkSink in ifaces {
          assert FirstMatch(o2, ifaces) == Some(SparkSink);
        } else {
          var o3 := o2[1..];
          assert o3 == [StreamingSource];
          assert FirstMatch(o2, ifaces) == FirstMatch(o3, ifaces);
          assert FirstMatch(o3, ifaces) == if StreamingSource in ifaces then Some(StreamingSource) else None;
        }
      }
    }
  }

  /**
   * Whatever the context, the result holds the plugin itself; a wrapped plugin implements the kind it
   * is wrapped as, its caller sets the plugin's class loader and is scoped to the plugin id, and it
   * is timed unless it is one of the Spark driver-side kinds.
   */
  lemma WrappedPluginShape(context: ContextKind, pluginId: string, plugin: Plugin)
    ensures var r := WrapPlugin(context, pluginId, plugin);
            && r.plugin == plugin
            && (r.WrappedPlugin? ==>
                  && r.kind in plugin.interfaces
                  && r.caller.ClassLoaderCaller? && r.caller.classLoader == plugin.classLoader
                  && ScopedTo(r.caller, pluginId)
                  && (TimingLayer in Layers(r.caller) <==> r.kind !in {SparkCompute, SparkSink, StreamingSource}))
            && (r.Unwrapped? ==> forall t :: t in BASE_ORDER ==> t !in plugin.interfaces)
  {
    CallerLayering(pluginId, plugin);
  }

  /** A plugin's properties, as the delegate context returns them. */
  datatype PluginProperties = PluginProperties(properties: map<string, string>)

  /** The macro evaluator passed when instantiating with macros. */
  datatype MacroEvaluator = MacroEvaluator(macros: map<string, string>)

  /**
   * The PluginContext being wrapped, as what it returns for each plugin id: properties, the plugin
   * class, and the instances it creates with and without a macro evaluator.
   */
  datatype Delegate = Delegate(
    pluginProperties: string -> PluginProperties,
    pluginClass: string -> nat,
    newInstance: string -> Plugin,
    newInstanceWithMacros: (string, MacroEvaluator) -> Plugin)

  /** A PipelinePluginContext (or, with SparkPipeline, a SparkPipelinePluginContext) over a delegate. */
  datatype PipelinePluginContext = PipelinePluginContext(context: ContextKind, delegate: Delegate)
  {
    /** getPluginProperties passes through to the delegate. */
    function GetPluginProperties(pluginId: string): (r: PluginProperties)
      ensures r == delegate.pluginProperties(pluginId)
    {
      delegate.pluginProperties(pluginId)
    }

    /** loadPluginClass passes through to the delegate. */
    function LoadPluginClass(pluginId: string): (r: nat)
      ensures r == delegate.pluginClass(pluginId)
    {
      delegate.pluginClass(pluginId)
    }

    /** newPluginInstance(pluginId): the delegate's instance, wrapped for the same plugin id. */
    function NewPluginInstance(pluginId: string): (r: Wrapped)
      ensures r.plugin == delegate.newInstance(pluginId)
      ensures r == WrapPlugin(context, pluginId, delegate.newInstance(pluginId))
    {
      WrappedPluginShape(context, pluginId, delegate.newInstance(pluginId));
      WrapPlugin(context, pluginId, delegate.newInstance(pluginId))
    }

    /** newPluginInstance(pluginId, evaluator): the delegate's instance, wrapped for the same plugin id. */
    function NewPluginInstanceWithMacros(pluginId: string, evaluator: MacroEvaluator): (r: Wrapped)
      ensures r.plugin == delegate.newInstanceWithMacros(pluginId, evaluator)
      ensures r == WrapPlugin(context, pluginId, delegate.newInstanceWithMacros(pluginId, evaluator))
    {
      WrappedPluginShape(context, pluginId, delegate.newInstanceWithMacros(pluginId, evaluator));
      WrapPlugin(context, pluginId, delegate.newInstanceWithMacros(pluginId, evaluator))
    }
  }
}
