# VINS-Mono inertial pre-integration and IMU residual, in Dafny

This project models the inertial core of the VINS-Mono visual-inertial estimator.

The first part is the IMU pre-integration engine `IntegrationBase`. Between two image frames it:

- buffers every IMU sample (`dt`, accelerometer, gyroscope);
- integrates the relative motion `delta_p`, `delta_q` and `delta_v` with the midpoint rule;
- carries the 15×15 bias Jacobian and covariance through `jacobian ← F·jacobian` and `covariance ← F·C·Fᵀ + V·N·Vᵀ`;
- can replay its buffers at a new bias linearisation point (`repropagate`);
- evaluates the 15-entry residual between two frame states, bias-corrected to first order.

The second part is the residual factor `IMUFactor::Evaluate`. It:

- unpacks the four parameter blocks (pose i, speed-bias i, pose j, speed-bias j);
- writes the whitened residual `sqrt_info · residual`;
- fills each requested Jacobian buffer, row-major, with its fixed block pattern, whitened the same way.

The third part is the two per-feature records of the feature manager: one observation of a feature (`FeaturePerFrame`) and a new feature track (`FeaturePerId`).

All arithmetic is over Dafny's `real`, exactly. Vectors, matrices and quaternions are written out in `Algebra.dfy`. That file covers sums, dot products, matrix products, transpose, 3×3 blocks, block-assembled matrices, the skew matrix and quaternion products and rotation. The modules are:

- `Algebra`: the linear algebra the code uses through Eigen.
- `Integration`: the engine. Its step and replay are specified by pure functions (`MidPointMean`, `Transition`, `NoiseInput`, `Step`, `Replay`, `Evaluate`), and the class `IntegrationBase` has fields and methods that are proved against them.
- `ImuFactor`: parameter packing, the four Jacobians as block layouts, and the class `IMUFactor` whose `Evaluate` fills caller-owned arrays.
- `FeatureManager`: the classes `FeaturePerFrame` and `FeaturePerId` and the `solve_flag` codes.

Parts of the system the model takes as given values:

- Quaternion normalisation is the engine's `normalize` function. Only `normalize(identity) == identity` is relied on, and only where a lemma states it as a precondition.
- `Utility::deltaQ`, `Qleft`, `Qright` and `skewSymmetric` are the fields of a `Utility` record of functions.
- `sqrt_info` is an input matrix of `IMUFactor.Evaluate`.
- The noise parameters `ACC_N`, `GYR_N`, `ACC_W` and `GYR_W` are a `Params` record. The gravity 3-vector `G` is the argument `g` of `Integration.Evaluate` and `IMUFactor.Evaluate`, the two places that read it.
- The block offsets are `O_P = 0`, `O_R = 3`, `O_V = 6`, `O_BA = 9` and `O_BG = 12`.

## Model

| member | source | states |
|---|---|---|
| `Integration.NoiseEntries` | vins_estimator/src/factor/integration_base.h:29-35 | every entry of the 18×18 noise matrix: on the diagonal the variance of its 3-block, zero everywhere else |
| `Integration.NoiseBlocks` | vins_estimator/src/factor/integration_base.h:29-35 | the six diagonal blocks are ACC_N²·I, GYR_N²·I, ACC_N²·I, GYR_N²·I, ACC_W²·I, GYR_W²·I |
| `Integration.NoiseSymmetric` | vins_estimator/src/factor/integration_base.h:29-35 | the noise matrix is symmetric |
| `Integration.MidPointMeanConstant` | vins_estimator/src/factor/integration_base.h:88-96 | with zero de-biased gyro rate, a constant de-biased acceleration a and identity delta_q, one midpoint step keeps delta_q the identity, adds dt·a to delta_v and dt·delta_v + ½·dt²·a to delta_p |
| `Integration.TransitionBlocks` | vins_estimator/src/factor/integration_base.h:118-133 | F has identity blocks at (0,0), (6,6), (9,9), (12,12), (3,3) = I − [w]×·dt and (3,12) = −I·dt |
| `Algebra.SkewIsCross` | vins_estimator/src/factor/integration_base.h:107-115 | the skew matrix the code fills in for w_x, a_0_x and a_1_x multiplies any vector as the cross product with that vector |
| `Integration.TransitionBiasRows` | vins_estimator/src/factor/integration_base.h:118-133 | rows 9-14 of F are zero except for 1 on the diagonal |
| `Integration.NoiseInputBiasRows` | vins_estimator/src/factor/integration_base.h:137-149 | rows 9-14 of V are zero except (9,12) and (12,15) blocks equal to I·dt |
| `Integration.Step` | vins_estimator/src/factor/integration_base.h:160-192 | one propagate step keeps the bias linearisation point, adds dt to sum_dt, and makes the new sample the next acc_0/gyr_0 |
| `Integration.StepSymmetric` | vins_estimator/src/factor/integration_base.h:155 | a step keeps the covariance symmetric when the noise is symmetric |
| `Integration.ReplayInvariants` | vins_estimator/src/factor/integration_base.h:66-70 | replaying samples keeps the bias point and the 15×15 shapes, and adds the sum of the dts to sum_dt |
| `Integration.ReplayLastSample` | vins_estimator/src/factor/integration_base.h:189-190 | after a replay acc_0/gyr_0 are the last replayed sample (or the start values when there is none) |
| `Integration.ReplayPush` | vins_estimator/src/factor/integration_base.h:39-46 | replaying buffers with one sample appended is one more step after replaying the old buffers |
| `Integration.ReplayCovarianceSymmetric` | vins_estimator/src/factor/integration_base.h:66-70 | the covariance stays symmetric through any replay from a symmetric start |
| `Integration.ReplayJacobian` | vins_estimator/src/factor/integration_base.h:154 | after a replay the jacobian is the ordered product F_n⋯F_1 times the start jacobian |
| `Integration.InitialJacobian` | vins_estimator/src/factor/integration_base.h:66-70 | from the reset state (identity jacobian) the replayed jacobian is exactly F_n⋯F_1 |
| `Integration.InitialReplay` | vins_estimator/src/factor/integration_base.h:57-70 | from the reset state a replay is 15×15, has a symmetric covariance, sum_dt equal to the sum of the dts and the given biases |
| `Integration.ConstantAcceleration` | vins_estimator/src/factor/integration_base.h:88-94 | with zero de-biased gyro rate and constant de-biased acceleration a from a zero start, delta_q stays the identity, delta_v = a·sum_dt and delta_p = ½·a·sum_dt² after any number of steps |
| `Integration.ConstantStep` | vins_estimator/src/factor/integration_base.h:88-96 | one step preserves the constant-acceleration closed form |
| `Integration.Evaluate` | vins_estimator/src/factor/integration_base.h:196-222 | the bias rows of the residual are exactly Baj − Bai and Bgj − Bgi |
| `Integration.CorrectionsVanish` | vins_estimator/src/factor/integration_base.h:209-214 | at the linearisation point the corrected delta_p and delta_v are the stored ones (and delta_q too when deltaQ(0) is the identity) |
| `Integration.EvaluateAtLinearization` | vins_estimator/src/factor/integration_base.h:209-218 | at the linearisation point the residual compares the frames with the stored increments |
| `Integration.ZeroCrossing` | vins_estimator/src/factor/integration_base.h:196-222 | frames at the linearisation point with equal biases, whose position and velocity gaps are the stored increments and with Qj = Qi·δq, give the zero 15-entry residual |
| `Integration.ShiftPj` | vins_estimator/src/factor/integration_base.h:216 | moving Pj by d changes only the position residual, by R(Qi⁻¹)·d |
| `Integration.ShiftPi` | vins_estimator/src/factor/integration_base.h:216 | moving Pi by d changes only the position residual, by −R(Qi⁻¹)·d |
| `Integration.ShiftVj` | vins_estimator/src/factor/integration_base.h:218 | moving Vj by d changes only the velocity residual, by R(Qi⁻¹)·d |
| `Integration.ShiftVi` | vins_estimator/src/factor/integration_base.h:216-218 | moving Vi by d changes the position residual by −R(Qi⁻¹)·sum_dt·d and the velocity residual by −R(Qi⁻¹)·d |
| `Integration.ShiftBai` | vins_estimator/src/factor/integration_base.h:209-219 | moving Bai by d changes the position, velocity and Ba residuals by −dp_dba·d, −dv_dba·d and −d |
| `Integration.ShiftBgi` | vins_estimator/src/factor/integration_base.h:210-220 | moving Bgi by d changes the position, velocity and Bg residuals by −dp_dbg·d, −dv_dbg·d and −d, and leaves the Ba residual |
| `Integration.ShiftBaj` | vins_estimator/src/factor/integration_base.h:219 | moving Baj by d changes only the Ba residual, by d |
| `Integration.ShiftBgj` | vins_estimator/src/factor/integration_base.h:220 | moving Bgj by d changes only the Bg residual, by d |
| `Integration.IntegrationBase.constructor` | vins_estimator/src/factor/integration_base.h:21-36 | identity jacobian, zero covariance, zero delta_p/delta_v, identity delta_q, sum_dt 0, the configured noise, empty buffers; the engine is valid |
| `Integration.IntegrationBase.MidPointIntegration` | vins_estimator/src/factor/integration_base.h:76-158 | outputs the midpoint mean with unchanged biases; updates jacobian and covariance by F and V only when update_jacobian is set, and changes nothing else |
| `Integration.IntegrationBase.Propagate` | vins_estimator/src/factor/integration_base.h:160-192 | the new state is one Step of the old state, and the sample is kept in dt/acc_1/gyr_1 |
| `Integration.IntegrationBase.PushBack` | vins_estimator/src/factor/integration_base.h:39-46 | appends one sample to each buffer, propagates exactly that sample, and keeps the state equal to the replay of the buffers |
| `Integration.IntegrationBase.Repropagate` | vins_estimator/src/factor/integration_base.h:54-71 | the state becomes the replay of the untouched buffers from a fresh start at (linearized_acc, linearized_gyr, ba, bg), and the engine is valid again |
| `Integration.IntegrationBase.Consistent` | vins_estimator/src/factor/integration_base.h:154-155 | every valid engine has a symmetric 15×15 covariance, sum_dt equal to the sum of dt_buf, and a jacobian equal to the product of the step transitions |
| `ImuFactor.UnpackPacked` | vins_estimator/src/factor/imu_factor.h:33-45 | unpacking the packed pose [P, qx, qy, qz, qw] and speed-bias [V, Ba, Bg] blocks gives the frame back |
| `ImuFactor.PackUnpacked` | vins_estimator/src/factor/imu_factor.h:33-45 | every 7- and 9-entry block pair is the packing of the frame it unpacks to |
| `ImuFactor.Jacobian` | vins_estimator/src/factor/imu_factor.h:12 | the Jacobians are 15×7, 15×9, 15×7 and 15×9 |
| `ImuFactor.PoseIBlocks` | vins_estimator/src/factor/imu_factor.h:107-121 | pose_i has (O_P,P) = −R(Qi⁻¹), (O_P,R) = skew of the position gap, (O_R,R) = −(Qleft(Qj⁻¹Qi)·Qright(corrected δq)) bottom-right, (O_V,R) = skew of the velocity gap |
| `ImuFactor.SpeedBiasIBlocks` | vins_estimator/src/factor/imu_factor.h:135-150 | speedbias_i has (O_P,V) = −R(Qi⁻¹)·sum_dt, (O_V,V) = −R(Qi⁻¹) and −dp_dba, −dp_dbg, −dv_dba, −dv_dbg |
| `ImuFactor.SpeedBiasIRotationBiasBlocks` | vins_estimator/src/factor/imu_factor.h:135-154 | speedbias_i has no (O_R,V) or (O_R,Ba) entry, (O_R,Bg) = −Qleft(Qj⁻¹·Qi·δq) bottom-right · dq_dbg, and −I on each bias row's own column |
| `ImuFactor.PoseJBlocks` | vins_estimator/src/factor/imu_factor.h:164-172 | pose_j has (O_P,P) = R(Qi⁻¹) and (O_R,R) = Qleft(corrected δq⁻¹·Qi⁻¹·Qj) bottom-right |
| `ImuFactor.SpeedBiasJBlocks` | vins_estimator/src/factor/imu_factor.h:183-189 | speedbias_j has (O_V,V) = R(Qi⁻¹), (O_BA,Ba) = I, (O_BG,Bg) = I |
| `ImuFactor.PoseColumnSixZero` | vins_estimator/src/factor/imu_factor.h:107-121 | column 6 of both pose Jacobians is never written and stays zero |
| `ImuFactor.PoseJSparse` | vins_estimator/src/factor/imu_factor.h:164-172 | pose_j is zero outside its (O_P,P) and (O_R,R) blocks |
| `ImuFactor.SpeedBiasJSparse` | vins_estimator/src/factor/imu_factor.h:183-189 | speedbias_j is zero outside (O_V,V), (O_BA,Ba) and (O_BG,Bg) |
| `ImuFactor.PoseJPositionExact` | vins_estimator/src/factor/imu_factor.h:166 | the (O_P,P) block of pose_j is the exact change of the residual when Pj moves |
| `ImuFactor.PoseIPositionExact` | vins_estimator/src/factor/imu_factor.h:111 | the (O_P,P) block of pose_i is the exact change of the residual when Pi moves |
| `ImuFactor.SpeedBiasIVelocityExact` | vins_estimator/src/factor/imu_factor.h:136-148 | the velocity columns of speedbias_i are the exact change of the residual when Vi moves |
| `ImuFactor.SpeedBiasJVelocityExact` | vins_estimator/src/factor/imu_factor.h:185 | the (O_V,V) block of speedbias_j is the exact change of the residual when Vj moves |
| `ImuFactor.SpeedBiasIAccBiasExact` | vins_estimator/src/factor/imu_factor.h:137-152 | the Ba columns of speedbias_i are the exact change of the residual when Bai moves |
| `ImuFactor.SpeedBiasIGyrBiasExact` | vins_estimator/src/factor/imu_factor.h:138-154 | the Bg columns of speedbias_i are the exact change of the position, velocity and Bg residuals when Bgi moves |
| `ImuFactor.SpeedBiasJBiasExact` | vins_estimator/src/factor/imu_factor.h:187-189 | the bias blocks of speedbias_j are the exact change of the residual when Baj or Bgj moves |
| `ImuFactor.RowMajorLength` | vins_estimator/src/factor/imu_factor.h:106 | a rows × cols matrix fills a row-major buffer of rows·cols entries |
| `ImuFactor.RowMajorAt` | vins_estimator/src/factor/imu_factor.h:106 | entry (i, j) sits at index i·cols + j of the row-major buffer |
| `ImuFactor.RowMajorRoundTrip` | vins_estimator/src/factor/imu_factor.h:106 | reading a matrix back from its row-major buffer gives the matrix |
| `ImuFactor.JacobianBufferAt` | vins_estimator/src/factor/imu_factor.h:123 | index i·n + j of Jacobian buffer k holds entry (i, j) of sqrt_info times the unwhitened Jacobian |
| `ImuFactor.UnitInformation` | vins_estimator/src/factor/imu_factor.h:76-79 | with sqrt_info the identity, the outputs are the raw residual and the unwhitened Jacobians |
| `ImuFactor.IMUFactor.constructor` | vins_estimator/src/factor/imu_factor.h:16-18 | the factor keeps the given pre-integration |
| `ImuFactor.IMUFactor.Evaluate` | vins_estimator/src/factor/imu_factor.h:28-199 | always returns true; residuals = sqrt_info · evaluate(unpacked frames); each non-null Jacobian buffer holds sqrt_info · its Jacobian row-major; no other memory changes and the pre-integration is only read |
| `FeatureManager.Code` | vins_estimator/src/feature_manager.h:57 | solve_flag codes lie in 0..2 and 0 is exactly the unsolved state |
| `FeatureManager.StateOf` | vins_estimator/src/feature_manager.h:57 | a solve_flag value names a state exactly when it is 0, 1 or 2 |
| `FeatureManager.StateOfCode` | vins_estimator/src/feature_manager.h:57 | decoding the code of a state gives the state |
| `FeatureManager.CodeOfState` | vins_estimator/src/feature_manager.h:57 | every valid code is the code of the state it decodes to |
| `FeatureManager.CodeInjective` | vins_estimator/src/feature_manager.h:57 | distinct states have distinct codes |
| `FeatureManager.FeaturePerFrame.constructor` | vins_estimator/src/feature_manager.h:22-32 | entries 0-2 become point, 3-4 uv, 5-6 velocity, td cur_td; packing the record gives the 7-vector back |
| `FeatureManager.FeaturePerId.constructor` | vins_estimator/src/feature_manager.h:61-65 | the given feature_id and start_frame, no observations, used_num 0, estimated_depth −1, solve_flag 0 (unsolved) |

## Left out

- Floating point: every quantity is an exact `real`. Rounding and the 1e8 "numerical unstable" warnings (imu_factor.h:92-97 on the pre-integration Jacobian, imu_factor.h:125-130 on pose_i) are not modelled. The warning only logs.
- Quaternion normalisation (`delta_q.normalize()`) needs a square root. It is the engine's abstract `normalize` field.
- `Utility::deltaQ`, `Qleft`, `Qright` and `skewSymmetric` are abstract functions, because utility.h is not part of this model. So every Jacobian block that involves orientation is stated only as the code writes it, with no derivative claim: the orientation-column blocks of pose_i, (O_P,R) at imu_factor.h:112, (O_R,R) at :118 and (O_V,R) at :121; the (O_R,R) block of pose_j at :172; and the (O_R,Bg) block of speedbias_i. No `*Exact` lemma covers them.
- `sqrt_info` is an input of `IMUFactor.Evaluate`: the Eigen LLT factorisation of the inverse covariance (imu_factor.h:76) is a foreign numerical routine. The property sqrt_infoᵀ·sqrt_info = covariance⁻¹ is not modelled.
- `IMUFactor.Evaluate`: `setZero`, the block assignments and the in-place whitening `J = sqrt_info · J` are collapsed into one write of the final buffer contents. The contract states those contents, which is what the three steps leave. The writes themselves go through `WriteBuffers` and `Fill`.
- The compiled-out `#if 0` repropagate check (imu_factor.h:63-69) and the commented-out code at integration_base.h:247-480 are dead code.
- `step_jacobian` and `step_V` are declared but never assigned (integration_base.h:152-153, 232-233).
- The fields `dt`, `acc_1` and `gyr_1` are left uninitialised by the constructor, so they are not part of the engine's state snapshot `State()`.
- `Integration.IntegrationBase.Repropagate`: the contract says nothing about `dt`, `acc_1` and `gyr_1` after the replay. The C++ leaves them holding the last buffered sample, or unchanged when the buffers are empty. With that stated as a loop invariant, the loop's proof is not stable within the resource limit. The loop overwrites them through `Propagate`, whose contract states the per-step value, but the model does not promise the final value.
- `IntegrationBase.Repropagate` requires that the three buffers have equal lengths and that the noise is the configured one. Every engine built by the constructor and changed only by `PushBack` meets both. The C++ code relies on this silently.
- The field assignments of `propagate` are split across two helper methods: `Store` for the integrated state and `Keep` for the last sample. `push_back`'s buffer appends are done by a third, `Record`. Together they assign exactly the source's fields.
- `ACC_N`, `GYR_N`, `ACC_W` and `GYR_W` come from parameters.h, which is not part of this model. They are opaque reals. `G` comes from the same file and is an opaque 3-vector, passed to each residual evaluation.
- The `FeatureManager` operations (`addFeatureCheckParallax`, `triangulate`, `removeBack`, `removeFront`, `setDepth` and the rest) and `FeaturePerId::endFrame` are only declared in feature_manager.h, so they are not modelled.
- The `FeaturePerFrame` fields `z`, `is_used`, `parallax` and `dep_gradient`, and the `FeaturePerId` fields `is_outlier`, `is_margin` and `gt_p`, are left uninitialised by the constructors and are not modelled.
- The `FeaturePerFrame` fields `A` (an Eigen `MatrixXd`) and `b` (a `VectorXd`) start empty, 0×0 and of size 0, by Eigen's default constructors. They are not modelled.
- projection_factor.h and pose_local_parameterization.h hold only declarations.
- ROS logging and the ceres `SizedCostFunction` plumbing are library glue. The parameter blocks and buffers are plain Dafny sequences and arrays.
